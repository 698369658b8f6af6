/** The execution phase of the agent runner: tool tracking, terminal events, and what reaches the host. */
module Runner {
  import opened Common
  import opened TokenBatching
  import opened Topology

  datatype Tool = Tool(id: string, name: string)

  /** SDK messages, reduced to what the loop reads. An empty tool id or text stands for a missing one. */
  datatype Message =
    | MessageStart
    | TextDelta(text: string)
    | ToolProgress(toolId: string, toolName: string)
    | TaskMessage(task: TaskMsg)
    | ToolSummary(toolIds: seq<string>, isError: bool)
    | Assistant(text: string)
    | ResultMessage(isError: bool)
    | OtherMessage

  /**
   * Anything that can happen to a running phase; `stopped` tells whether the stop file was there when the message
   * came. A signal does not stop the phase: the process goes on until its output is drained, and then exits.
   */
  datatype Input =
    | ToolHook(toolId: string, toolName: string, changedPath: Option<string>)
    | SubagentHook(agentType: string)
    | Received(message: Message, stopped: bool)
    | StreamEnds
    | StreamThrows
    | Signal
    | ProcessExits

  datatype Exit = ByResult | ByTurnLimit | ByStopFile | ByEndOfStream | ByError | BySignal

  /** `active` keeps the insertion order of the map; `calls` are the emitter calls made so far. */
  datatype Phase = Phase(
    active: seq<Tool>, turn: nat, tracker: Tracker, calls: seq<AgentEvent>, draining: bool, exit: Option<Exit>)

  datatype Config = Config(maxTurns: int, root: string)

  predicate HasTool(active: seq<Tool>, id: string) {
    exists t :: t in active && t.id == id
  }

  function NameOf(active: seq<Tool>, id: string): string {
    if active == [] then "" else if active[0].id == id then active[0].name else NameOf(active[1..], id)
  }

  function Remove(active: seq<Tool>, id: string): seq<Tool> {
    if active == [] then [] else if active[0].id == id then active[1..] else [active[0]] + Remove(active[1..], id)
  }

  function Emit(s: Phase, e: AgentEvent): Phase {
    s.(calls := s.calls + [e])
  }

  function EmitAll(s: Phase, es: seq<AgentEvent>): Phase {
    s.(calls := s.calls + es)
  }

  function OpenTool(s: Phase, id: string, name: string): Phase {
    if HasTool(s.active, id) then s
    else s.(active := s.active + [Tool(id, name)], calls := s.calls + [ToolStart(id, name)])
  }

  function CloseTool(s: Phase, id: string, isError: bool): Phase {
    if !HasTool(s.active, id) then s
    else s.(active := Remove(s.active, id), calls := s.calls + [ToolResult(id, NameOf(s.active, id), isError)])
  }

  function CloseEach(s: Phase, ids: seq<string>, isError: bool): Phase
    decreases |ids|
  {
    if ids == [] then s else CloseEach(CloseTool(s, ids[0], isError), ids[1..], isError)
  }

  function Ids(active: seq<Tool>): seq<string> {
    seq(|active|, i requires 0 <= i < |active| => active[i].id)
  }

  function CloseAll(s: Phase, isError: bool): Phase {
    CloseEach(s, Ids(s.active), isError)
  }

  function Finish(s: Phase, e: AgentEvent, exit: Exit): Phase {
    Emit(s, e).(exit := Some(exit))
  }

  function OnMessage(c: Config, s: Phase, m: Message): Phase {
    match m
    case MessageStart =>
      var s' := Emit(s.(turn := s.turn + 1), Turn(s.turn + 1));
      if s'.turn >= c.maxTurns then Finish(s', Complete(TurnLimit, s'.turn), ByTurnLimit) else s'
    case TextDelta(text) => if text == "" then s else Emit(s, Token(text))
    case ToolProgress(id, name) => OpenTool(s, id, name)
    case TaskMessage(task) => EmitAll(s, Emits(s.tracker, task, c.root)).(tracker := Handle(s.tracker, task))
    case ToolSummary(ids, isError) => CloseEach(s, ids, isError)
    case Assistant(text) =>
      var s' := CloseAll(s, false);
      if text == "" then s' else Emit(s', AgentEvent.Message(text))
    case ResultMessage(isError) =>
      var s' := CloseAll(s, false);
      Finish(s', Complete(if isError then ErrorStatus else Completed, s'.turn), ByResult)
    case OtherMessage => s
  }

  /** One input; once the phase has exited nothing more happens. */
  function Step(c: Config, s: Phase, input: Input): Phase {
    if s.exit.Some? then s
    else match input
      case ToolHook(id, name, path) =>
        if id == "" || HasTool(s.active, id) then s
        else
          var s' := OpenTool(s, id, name);
          if path.Some? then Emit(s', FileChanged(path.value)) else s'
      case SubagentHook(agentType) => s.(tracker := Hook(s.tracker, agentType))
      case Received(m, stopped) => if stopped then Finish(s, Cancelled(s.turn), ByStopFile) else OnMessage(c, s, m)
      case StreamEnds => var s' := CloseAll(s, false); Finish(s', Complete(Completed, s'.turn), ByEndOfStream)
      case StreamThrows => var s' := CloseAll(s, false); Finish(s', ErrorEvent(s'.turn), ByError)
      case Signal => CloseAll(s, true).(draining := true)
      case ProcessExits => if s.draining then s.(exit := Some(BySignal)) else s
  }

  /** The phase announces itself and its root node first. */
  function Begin(c: Config): Phase {
    Phase([], 0, FreshTracker.(rootEmitted := true), [Started, TopologySpawned(c.root, None, None)], false, None)
  }

  function Run(c: Config, inputs: seq<Input>): Phase {
    if inputs == [] then Begin(c) else Step(c, Run(c, inputs[..|inputs| - 1]), inputs[|inputs| - 1])
  }

  // ---------------------------------------------------------------- pairing

  /** Starts minus results for one tool id. */
  function Open(calls: seq<AgentEvent>, id: string): int {
    if calls == [] then 0
    else
      var last := calls[|calls| - 1];
      Open(calls[..|calls| - 1], id)
      + (if last.ToolStart? && last.toolId == id then 1 else if last.ToolResult? && last.toolId == id then -1 else 0)
  }

  function StartName(calls: seq<AgentEvent>, id: string): string {
    if calls == [] then ""
    else
      var last := calls[|calls| - 1];
      if last.ToolStart? && last.toolId == id then last.toolName else StartName(calls[..|calls| - 1], id)
  }

  /** For every id, starts and results alternate beginning with a start, and a result bears the name of its start. */
  predicate Alternates(calls: seq<AgentEvent>) {
    calls != [] ==>
      var init, last := calls[..|calls| - 1], calls[|calls| - 1];
      && Alternates(init)
      && (last.ToolStart? ==> Open(init, last.toolId) == 0)
      && (last.ToolResult? ==> Open(init, last.toolId) == 1 && last.toolName == StartName(init, last.toolId))
  }

  predicate Terminal(e: AgentEvent) {
    e.Complete? || e.ErrorEvent? || e.Cancelled?
  }

  ghost predicate NoTerminal(calls: seq<AgentEvent>) {
    forall e :: e in calls ==> !Terminal(e)
  }

  ghost predicate UniqueTools(active: seq<Tool>) {
    forall i, j :: 0 <= i < j < |active| ==> active[i].id != active[j].id
  }

  /** The tool lacks a result exactly if it is active, and then it is so under its start's name. */
  predicate Matches(active: seq<Tool>, calls: seq<AgentEvent>, id: string) {
    && Open(calls, id) == (if HasTool(active, id) then 1 else 0)
    && (HasTool(active, id) ==> NameOf(active, id) == StartName(calls, id))
  }

  ghost predicate ActiveMatches(active: seq<Tool>, calls: seq<AgentEvent>) {
    forall id: string :: Matches(active, calls, id)
  }

  ghost predicate Paired(s: Phase) {
    UniqueTools(s.active) && Alternates(s.calls) && ActiveMatches(s.active, s.calls)
  }

  lemma {:induction false} OpenSnoc(calls: seq<AgentEvent>, e: AgentEvent, id: string)
    ensures Open(calls + [e], id) == Open(calls, id)
            + if e.ToolStart? && e.toolId == id then 1 else if e.ToolResult? && e.toolId == id then -1 else 0
    ensures StartName(calls + [e], id) == if e.ToolStart? && e.toolId == id then e.toolName else StartName(calls, id)
  {
    assert (calls + [e])[..|calls|] == calls;
  }

  lemma {:induction false} AlternatesSnoc(calls: seq<AgentEvent>, e: AgentEvent)
    requires Alternates(calls)
    requires e.ToolStart? ==> Open(calls, e.toolId) == 0
    requires e.ToolResult? ==> Open(calls, e.toolId) == 1 && e.toolName == StartName(calls, e.toolId)
    ensures Alternates(calls + [e])
  {
    assert (calls + [e])[..|calls|] == calls;
  }

  lemma {:induction false} ActiveFacts(active: seq<Tool>, id: string, other: string)
    requires UniqueTools(active)
    ensures HasTool(Remove(active, id), other) <==> HasTool(active, other) && other != id
    ensures other != id ==> NameOf(Remove(active, id), other) == NameOf(active, other)
    ensures UniqueTools(Remove(active, id))
    ensures HasTool(active, id) ==> |Remove(active, id)| == |active| - 1
  {
    if active != [] {
      var t, rest := active[0], active[1..];
      assert active == [t] + rest;
      ActiveFacts(rest, id, other);
      assert HasTool(active, other) <==> t.id == other || HasTool(rest, other);
      assert HasTool(active, id) <==> t.id == id || HasTool(rest, id);
      if t.id == id {
        assert !HasTool(rest, id);
      } else {
        var r := Remove(rest, id);
        assert HasTool([t] + r, other) <==> t.id == other || HasTool(r, other);
        forall j | 0 <= j < |r| ensures r[j].id != t.id {
          assert HasTool(r, r[j].id);
          ActiveFacts(rest, id, r[j].id);
          assert !HasTool(rest, t.id);
        }
      }
    }
  }

  lemma {:induction false} AppendTool(active: seq<Tool>, t: Tool, other: string)
    requires !HasTool(active, t.id)
    ensures HasTool(active + [t], other) <==> HasTool(active, other) || other == t.id
    ensures HasTool(active, other) ==> NameOf(active + [t], other) == NameOf(active, other)
    ensures NameOf(active + [t], t.id) == t.name
  {
    if active == [] {
      assert active + [t] == [t];
      assert t in [t];
    } else {
      var rest := active[1..];
      assert active == [active[0]] + rest && (active + [t])[1..] == rest + [t];
      assert HasTool(active, other) <==> active[0].id == other || HasTool(rest, other);
      assert !HasTool(rest, t.id) && active[0].id != t.id;
      AppendTool(rest, t, other);
      assert HasTool(active + [t], other) <==> active[0].id == other || HasTool(rest + [t], other) by {
        assert active + [t] == [active[0]] + (rest + [t]);
      }
    }
  }

  lemma OpeningMatches(active: seq<Tool>, calls: seq<AgentEvent>, t: Tool, other: string)
    requires Matches(active, calls, t.id) && Matches(active, calls, other) && !HasTool(active, t.id)
    ensures Matches(active + [t], calls + [ToolStart(t.id, t.name)], other)
  {
    OpenSnoc(calls, ToolStart(t.id, t.name), other);
    AppendTool(active, t, other);
  }

  lemma AppendKeepsUnique(active: seq<Tool>, t: Tool)
    requires UniqueTools(active) && !HasTool(active, t.id)
    ensures UniqueTools(active + [t])
  {
    forall i | 0 <= i < |active| ensures active[i].id != t.id {
      assert active[i] in active;
    }
  }

  lemma OpenToolKeepsPaired(s: Phase, id: string, name: string)
    requires Paired(s)
    ensures Paired(OpenTool(s, id, name))
  {
    if !HasTool(s.active, id) {
      var t, e := Tool(id, name), ToolStart(id, name);
      assert Matches(s.active, s.calls, id);
      AlternatesSnoc(s.calls, e);
      AppendKeepsUnique(s.active, t);
      forall other: string ensures Matches(s.active + [t], s.calls + [e], other) {
        assert Matches(s.active, s.calls, other);
        OpeningMatches(s.active, s.calls, t, other);
      }
    }
  }

  lemma {:induction false} ClosingMatches(active: seq<Tool>, calls: seq<AgentEvent>, id: string, isError: bool, other: string)
    requires UniqueTools(active) && HasTool(active, id) && Matches(active, calls, id) && Matches(active, calls, other)
    ensures Matches(Remove(active, id), calls + [ToolResult(id, NameOf(active, id), isError)], other)
  {
    OpenSnoc(calls, ToolResult(id, NameOf(active, id), isError), other);
    ActiveFacts(active, id, other);
  }

  lemma CloseToolKeepsPaired(s: Phase, id: string, isError: bool)
    requires Paired(s)
    ensures Paired(CloseTool(s, id, isError)) && !HasTool(CloseTool(s, id, isError).active, id)
  {
    if HasTool(s.active, id) {
      var e := ToolResult(id, NameOf(s.active, id), isError);
      assert Matches(s.active, s.calls, id);
      AlternatesSnoc(s.calls, e);
      forall other: string ensures Matches(Remove(s.active, id), s.calls + [e], other) {
        assert Matches(s.active, s.calls, other);
        ClosingMatches(s.active, s.calls, id, isError, other);
      }
      ActiveFacts(s.active, id, id);
    }
  }

  lemma EmitKeepsPaired(s: Phase, e: AgentEvent)
    requires Paired(s) && !e.ToolStart? && !e.ToolResult?
    ensures Paired(Emit(s, e))
  {
    AlternatesSnoc(s.calls, e);
    forall id: string ensures Matches(s.active, s.calls + [e], id) {
      assert Matches(s.active, s.calls, id);
      OpenSnoc(s.calls, e, id);
    }
  }

  lemma {:induction false} EmitAllKeepsPaired(s: Phase, es: seq<AgentEvent>)
    requires Paired(s) && forall e :: e in es ==> !e.ToolStart? && !e.ToolResult?
    ensures Paired(EmitAll(s, es))
    decreases |es|
  {
    if es == [] {
      assert s.calls + es == s.calls;
    } else {
      EmitKeepsPaired(s, es[0]);
      EmitAllKeepsPaired(Emit(s, es[0]), es[1..]);
      assert s.calls + es == s.calls + [es[0]] + es[1..];
    }
  }

  /** Closing tools touches nothing but the active tools and the calls, and adds no terminal event. */
  lemma {:induction false} CloseEachFrame(s: Phase, ids: seq<string>, isError: bool)
    ensures var s' := CloseEach(s, ids, isError);
            && s'.exit == s.exit && s'.turn == s.turn && s'.tracker == s.tracker && s'.draining == s.draining
            && (NoTerminal(s.calls) ==> NoTerminal(s'.calls))
    decreases |ids|
  {
    if ids != [] { CloseEachFrame(CloseTool(s, ids[0], isError), ids[1..], isError); }
  }

  lemma {:induction false} CloseEachKeepsPaired(s: Phase, ids: seq<string>, isError: bool)
    requires Paired(s)
    ensures Paired(CloseEach(s, ids, isError))
    decreases |ids|
  {
    if ids != [] {
      CloseToolKeepsPaired(s, ids[0], isError);
      CloseEachKeepsPaired(CloseTool(s, ids[0], isError), ids[1..], isError);
    }
  }

  lemma {:induction false} CloseEachCloses(s: Phase, ids: seq<string>, isError: bool, id: string)
    requires Paired(s)
    ensures HasTool(CloseEach(s, ids, isError).active, id) <==> HasTool(s.active, id) && id !in ids
    decreases |ids|
  {
    if ids != [] {
      CloseToolKeepsPaired(s, ids[0], isError);
      ActiveFacts(s.active, ids[0], id);
      CloseEachCloses(CloseTool(s, ids[0], isError), ids[1..], isError, id);
      assert ids == [ids[0]] + ids[1..];
    }
  }

  lemma CloseAllCloses(s: Phase, isError: bool)
    requires Paired(s)
    ensures var s' := CloseAll(s, isError);
            && Paired(s') && s'.active == []
            && s'.exit == s.exit && s'.turn == s.turn && s'.tracker == s.tracker && s'.draining == s.draining
            && (NoTerminal(s.calls) ==> NoTerminal(s'.calls))
  {
    CloseEachKeepsPaired(s, Ids(s.active), isError);
    CloseEachFrame(s, Ids(s.active), isError);
    var left := CloseAll(s, isError).active;
    if left != [] {
      FirstIsActive(left);
      CloseEachCloses(s, Ids(s.active), isError, left[0].id);
      ActiveIsListed(s.active, left[0].id);
    }
  }

  lemma ActiveIsListed(active: seq<Tool>, id: string)
    requires HasTool(active, id)
    ensures id in Ids(active)
  {
    var i :| 0 <= i < |active| && active[i].id == id;
    assert Ids(active)[i] == id;
  }

  lemma FirstIsActive(active: seq<Tool>)
    ensures active != [] ==> HasTool(active, active[0].id)
  {
    if active != [] { assert active[0] in active; }
  }

  /** Exits after which every tool has its result. */
  predicate ClosesTools(exit: Exit) {
    exit.ByResult? || exit.ByEndOfStream? || exit.ByError?
  }

  ghost predicate Ended(s: Phase) {
    match s.exit
    case None => NoTerminal(s.calls)
    case Some(exit) =>
      && (ClosesTools(exit) ==> s.active == [])
      && if exit.BySignal? then NoTerminal(s.calls)
         else |s.calls| > 0 && Terminal(s.calls[|s.calls| - 1]) && NoTerminal(s.calls[..|s.calls| - 1])
  }

  ghost predicate Inv(s: Phase) {
    Paired(s) && Ended(s)
  }

  ghost predicate Running(s: Phase) {
    Paired(s) && NoTerminal(s.calls) && s.exit.None?
  }

  lemma EmitRuns(s: Phase, e: AgentEvent)
    requires Running(s) && !e.ToolStart? && !e.ToolResult? && !Terminal(e)
    ensures Running(Emit(s, e))
  {
    EmitKeepsPaired(s, e);
  }

  lemma EmitAllRuns(s: Phase, es: seq<AgentEvent>)
    requires Running(s) && forall e :: e in es ==> !e.ToolStart? && !e.ToolResult? && !Terminal(e)
    ensures Running(EmitAll(s, es))
  {
    EmitAllKeepsPaired(s, es);
  }

  lemma OpenToolRuns(s: Phase, id: string, name: string)
    requires Running(s)
    ensures Running(OpenTool(s, id, name))
  {
    OpenToolKeepsPaired(s, id, name);
  }

  lemma {:induction false} CloseEachRuns(s: Phase, ids: seq<string>, isError: bool)
    requires Running(s)
    ensures Running(CloseEach(s, ids, isError))
  {
    CloseEachKeepsPaired(s, ids, isError);
    CloseEachFrame(s, ids, isError);
  }

  lemma CloseAllRuns(s: Phase, isError: bool)
    requires Running(s)
    ensures Running(CloseAll(s, isError)) && CloseAll(s, isError).active == []
  {
    CloseAllCloses(s, isError);
  }

  lemma FinishEnds(s: Phase, e: AgentEvent, exit: Exit)
    requires Running(s) && Terminal(e) && !exit.BySignal? && (ClosesTools(exit) ==> s.active == [])
    ensures Inv(Finish(s, e, exit))
  {
    EmitKeepsPaired(s, e);
    assert (s.calls + [e])[..|s.calls|] == s.calls;
  }

  /** The invariant is about tools, calls and exit only. */
  lemma InvDependsOn(s: Phase, s': Phase)
    requires Inv(s) && s'.active == s.active && s'.calls == s.calls && s'.exit == s.exit
    ensures Inv(s')
  {
  }

  lemma TurnKeeps(c: Config, s: Phase)
    requires Running(s)
    ensures Inv(OnMessage(c, s, MessageStart))
  {
    var n, s' := s.turn + 1, OnMessage(c, s, MessageStart);
    var emitted := Emit(s, Turn(n));
    EmitRuns(s, Turn(n));
    if n >= c.maxTurns {
      FinishEnds(emitted, Complete(TurnLimit, n), ByTurnLimit);
      InvDependsOn(Finish(emitted, Complete(TurnLimit, n), ByTurnLimit), s');
    } else {
      InvDependsOn(emitted, s');
    }
  }

  lemma AssistantKeeps(c: Config, s: Phase, text: string)
    requires Running(s)
    ensures Inv(OnMessage(c, s, Assistant(text)))
  {
    CloseAllRuns(s, false);
    if text != "" { EmitRuns(CloseAll(s, false), AgentEvent.Message(text)); }
  }

  lemma ResultKeeps(c: Config, s: Phase, isError: bool)
    requires Running(s)
    ensures Inv(OnMessage(c, s, ResultMessage(isError)))
  {
    var s' := CloseAll(s, false);
    CloseAllRuns(s, false);
    FinishEnds(s', Complete(if isError then ErrorStatus else Completed, s'.turn), ByResult);
  }

  lemma MessageKeeps(c: Config, s: Phase, m: Message)
    requires Running(s)
    ensures Inv(OnMessage(c, s, m))
  {
    match m
    case MessageStart => TurnKeeps(c, s);
    case TextDelta(text) => EmitRuns(s, Token(text));
    case ToolProgress(id, name) => OpenToolRuns(s, id, name);
    case TaskMessage(task) => EmitAllRuns(s, Emits(s.tracker, task, c.root));
    case ToolSummary(ids, isError) => CloseEachRuns(s, ids, isError);
    case Assistant(text) => AssistantKeeps(c, s, text);
    case ResultMessage(isError) => ResultKeeps(c, s, isError);
    case OtherMessage =>
  }

  lemma StepKeeps(c: Config, s: Phase, input: Input)
    requires Inv(s)
    ensures Inv(Step(c, s, input))
  {
    if s.exit.None? {
      match input
      case ToolHook(id, name, path) =>
        OpenToolRuns(s, id, name);
        if path.Some? { EmitRuns(OpenTool(s, id, name), FileChanged(path.value)); }
      case SubagentHook(agentType) =>
      case Received(m, stopped) => if stopped { FinishEnds(s, Cancelled(s.turn), ByStopFile); } else { MessageKeeps(c, s, m); }
      case StreamEnds =>
        CloseAllRuns(s, false);
        FinishEnds(CloseAll(s, false), Complete(Completed, CloseAll(s, false).turn), ByEndOfStream);
      case StreamThrows =>
        CloseAllRuns(s, false);
        FinishEnds(CloseAll(s, false), ErrorEvent(CloseAll(s, false).turn), ByError);
      case Signal => CloseAllRuns(s, true);
      case ProcessExits =>
    }
  }

  lemma {:induction false} RunKeeps(c: Config, inputs: seq<Input>)
    ensures Inv(Run(c, inputs))
  {
    if inputs == [] {
      var s := Phase([], 0, FreshTracker.(rootEmitted := true), [], false, None);
      EmitKeepsPaired(s, Started);
      EmitKeepsPaired(Emit(s, Started), TopologySpawned(c.root, None, None));
      assert Begin(c).calls == [] + [Started] + [TopologySpawned(c.root, None, None)];
    } else {
      RunKeeps(c, inputs[..|inputs| - 1]);
      StepKeeps(c, Run(c, inputs[..|inputs| - 1]), inputs[|inputs| - 1]);
    }
  }

  /**
   * Tool pairing. After any inputs, starts and results alternate per tool id, every result bears the name of
   * its start, and exactly the active tools lack a result.
   */
  lemma {:induction false} ToolsPair(c: Config, inputs: seq<Input>, id: string)
    ensures var s := Run(c, inputs);
            && Alternates(s.calls)
            && Open(s.calls, id) == if HasTool(s.active, id) then 1 else 0
  {
    RunKeeps(c, inputs);
    assert Matches(Run(c, inputs).active, Run(c, inputs).calls, id);
  }

  function Results(tools: seq<Tool>, isError: bool): seq<AgentEvent> {
    seq(|tools|, i requires 0 <= i < |tools| => ToolResult(tools[i].id, tools[i].name, isError))
  }

  /** Closing all tools one by one sends one result each, in order. */
  lemma {:induction false} CloseAllIs(s: Phase, isError: bool)
    ensures CloseAll(s, isError) == s.(active := [], calls := s.calls + Results(s.active, isError))
    decreases |s.active|
  {
    var tools := s.active;
    if tools == [] {
      assert s.calls + Results(tools, isError) == s.calls;
    } else {
      var s' := CloseTool(s, tools[0].id, isError);
      assert tools[0] in tools;
      assert Ids(tools)[1..] == Ids(tools[1..]);
      CloseAllIs(s', isError);
      assert Results(tools, isError) == [ToolResult(tools[0].id, tools[0].name, isError)] + Results(tools[1..], isError);
    }
  }

  // ---------------------------------------------------------------- which inputs end a run

  /** How many turns the received messages began. */
  function Turns(inputs: seq<Input>): nat {
    if inputs == [] then 0
    else
      var last := inputs[|inputs| - 1];
      Turns(inputs[..|inputs| - 1]) + if last.Received? && last.message.MessageStart? then 1 else 0
  }

  /** The i-th input ends the run, if none before it did. */
  predicate Ends(c: Config, inputs: seq<Input>, i: nat)
    requires i < |inputs|
  {
    match inputs[i]
    case StreamEnds => true
    case StreamThrows => true
    case ProcessExits => Signal in inputs[..i]
    case Received(m, stopped) => stopped || m.ResultMessage? || (m.MessageStart? && Turns(inputs[..i]) + 1 >= c.maxTurns)
    case _ => false
  }

  predicate NoneEnds(c: Config, inputs: seq<Input>) {
    forall i :: 0 <= i < |inputs| ==> !Ends(c, inputs, i)
  }

  function ExitOf(input: Input): Exit {
    match input
    case StreamEnds => ByEndOfStream
    case StreamThrows => ByError
    case Received(m, stopped) => if stopped then ByStopFile else if m.ResultMessage? then ByResult else ByTurnLimit
    case _ => BySignal
  }

  lemma PrefixEnds(c: Config, inputs: seq<Input>, n: nat, i: nat)
    requires i < n <= |inputs|
    ensures Ends(c, inputs[..n], i) <==> Ends(c, inputs, i)
  {
    assert inputs[..n][..i] == inputs[..i];
  }

  lemma NoneEndsSnoc(c: Config, inputs: seq<Input>)
    requires inputs != []
    ensures var n := |inputs| - 1; NoneEnds(c, inputs) <==> NoneEnds(c, inputs[..n]) && !Ends(c, inputs, n)
  {
    var n := |inputs| - 1;
    forall i | 0 <= i < n ensures Ends(c, inputs[..n], i) <==> Ends(c, inputs, i) {
      PrefixEnds(c, inputs, n, i);
    }
  }

  lemma {:induction false} CloseEachKeepsRest(s: Phase, ids: seq<string>, isError: bool)
    ensures var s' := CloseEach(s, ids, isError);
            s'.exit == s.exit && s'.turn == s.turn && s'.tracker == s.tracker && s'.draining == s.draining
    decreases |ids|
  {
    if ids != [] { CloseEachKeepsRest(CloseTool(s, ids[0], isError), ids[1..], isError); }
  }

  /** What an input does to everything but tools, tracker and calls. */
  lemma StepControl(c: Config, s: Phase, input: Input)
    requires s.exit.None?
    ensures var s' := Step(c, s, input);
            && s'.draining == (s.draining || input == Signal)
            && (input.Received? && !input.stopped ==> s'.turn == s.turn + if input.message.MessageStart? then 1 else 0)
            && (!input.Received? ==> s'.turn == s.turn)
            && (s'.exit.Some? <==> match input
                  case StreamEnds => true
                  case StreamThrows => true
                  case ProcessExits => s.draining
                  case Received(m, stopped) => stopped || m.ResultMessage? || (m.MessageStart? && s.turn + 1 >= c.maxTurns)
                  case _ => false)
            && (s'.exit.Some? ==> s'.exit == Some(ExitOf(input)))
  {
    CloseEachKeepsRest(s, Ids(s.active), false);
    CloseEachKeepsRest(s, Ids(s.active), true);
    if input.Received? && input.message.ToolSummary? {
      CloseEachKeepsRest(s, input.message.toolIds, input.message.isError);
    }
  }

  /** A run goes on exactly as long as no input ends it, and ends in the way of the input that did. */
  lemma {:induction false} ExitIff(c: Config, inputs: seq<Input>)
    ensures var s := Run(c, inputs);
            && (s.exit.None? <==> NoneEnds(c, inputs))
            && (s.exit.None? ==> s.turn == Turns(inputs) && (s.draining <==> Signal in inputs))
  {
    if inputs != [] {
      var n := |inputs| - 1;
      var s := Run(c, inputs[..n]);
      ExitIff(c, inputs[..n]);
      NoneEndsSnoc(c, inputs);
      assert inputs == inputs[..n] + [inputs[n]];
      if s.exit.None? { StepControl(c, s, inputs[n]); }
    }
  }

  lemma {:induction false} EndedByFirst(c: Config, inputs: seq<Input>, i: nat)
    requires i < |inputs| && Ends(c, inputs, i) && NoneEnds(c, inputs[..i])
    ensures Run(c, inputs) == Run(c, inputs[..i + 1]) && Run(c, inputs).exit == Some(ExitOf(inputs[i]))
  {
    var n := |inputs| - 1;
    if i < n {
      PrefixEnds(c, inputs, n, i);
      assert inputs[..n][..i] == inputs[..i] && inputs[..n][..i + 1] == inputs[..i + 1];
      EndedByFirst(c, inputs[..n], i);
    } else {
      assert inputs[..i + 1] == inputs;
      ExitIff(c, inputs[..i]);
      StepControl(c, Run(c, inputs[..i]), inputs[i]);
      ExitIff(c, inputs);
      NoneEndsSnoc(c, inputs);
    }
  }

  /** No terminal event before the end; at the end exactly one, last, unless the process exited on a signal. */
  lemma {:induction false} OneTerminalEventLast(c: Config, inputs: seq<Input>)
    ensures var s := Run(c, inputs);
            && (s.exit.None? <==> NoneEnds(c, inputs))
            && if s.exit.Some? && !s.exit.value.BySignal? then
                 |s.calls| > 0 && Terminal(s.calls[|s.calls| - 1]) && NoTerminal(s.calls[..|s.calls| - 1])
               else NoTerminal(s.calls)
  {
    RunKeeps(c, inputs);
    ExitIff(c, inputs);
  }

  // ---------------------------------------------------------------- which tools are open

  /** The input starts tracking the tool. */
  predicate Opens(input: Input, id: string) {
    || (input.ToolHook? && input.toolId == id && id != "")
    || (input.Received? && !input.stopped && input.message.ToolProgress? && input.message.toolId == id)
  }

  /** The input makes sure the tool has its result. */
  predicate Closes(input: Input, id: string) {
    || input.StreamEnds? || input.StreamThrows? || input.Signal?
    || (input.Received? && !input.stopped
        && (input.message.Assistant? || input.message.ResultMessage? || (input.message.ToolSummary? && id in input.message.toolIds)))
  }

  /** The i-th input opened the tool and none closed it since. */
  predicate OpenSince(inputs: seq<Input>, i: int, id: string) {
    0 <= i < |inputs| && Opens(inputs[i], id) && forall k :: i < k < |inputs| ==> !Closes(inputs[k], id)
  }

  /** Some input opened the tool and none closed it since. */
  ghost predicate LeftOpen(inputs: seq<Input>, id: string) {
    exists i :: OpenSince(inputs, i, id)
  }

  lemma OpenSinceSnoc(inputs: seq<Input>, i: int, id: string)
    requires inputs != []
    ensures var n := |inputs| - 1;
            OpenSince(inputs, i, id) <==> (i == n && Opens(inputs[n], id)) || (OpenSince(inputs[..n], i, id) && !Closes(inputs[n], id))
  {
    var n := |inputs| - 1;
    assert forall k :: 0 <= k < n ==> inputs[..n][k] == inputs[k];
  }

  lemma LeftOpenSnoc(inputs: seq<Input>, id: string)
    requires inputs != []
    ensures var n := |inputs| - 1;
            LeftOpen(inputs, id) <==> Opens(inputs[n], id) || (LeftOpen(inputs[..n], id) && !Closes(inputs[n], id))
  {
    var n := |inputs| - 1;
    OpenSinceSnoc(inputs, n, id);
    if i :| OpenSince(inputs, i, id) {
      OpenSinceSnoc(inputs, i, id);
    }
    if i :| OpenSince(inputs[..n], i, id) {
      OpenSinceSnoc(inputs, i, id);
    }
  }

  lemma OpenToolHas(s: Phase, id: string, name: string, other: string)
    ensures HasTool(OpenTool(s, id, name).active, other) <==> HasTool(s.active, other) || other == id
  {
    if !HasTool(s.active, id) { AppendTool(s.active, Tool(id, name), other); }
  }

  lemma MessageTools(c: Config, s: Phase, m: Message, id: string)
    requires Paired(s) && s.exit.None?
    ensures HasTool(OnMessage(c, s, m).active, id)
            <==> Opens(Received(m, false), id) || (HasTool(s.active, id) && !Closes(Received(m, false), id))
  {
    match m
    case ToolProgress(other, name) => OpenToolHas(s, other, name, id);
    case ToolSummary(ids, isError) => CloseEachCloses(s, ids, isError, id);
    case Assistant(_) => CloseAllCloses(s, false);
    case ResultMessage(_) => CloseAllCloses(s, false);
    case _ =>
  }

  lemma StepTools(c: Config, s: Phase, input: Input, id: string)
    requires Paired(s) && s.exit.None?
    ensures HasTool(Step(c, s, input).active, id)
            <==> Opens(input, id) || (HasTool(s.active, id) && !Closes(input, id))
  {
    match input
    case ToolHook(other, name, _) => OpenToolHas(s, other, name, id);
    case Received(m, stopped) => if !stopped { MessageTools(c, s, m, id); }
    case Signal => CloseAllCloses(s, true);
    case StreamEnds => CloseAllCloses(s, false);
    case StreamThrows => CloseAllCloses(s, false);
    case _ =>
  }

  /**
   * While a run goes on, the tools without a result are exactly those that some input opened and none closed
   * since: a signal closes what was open, and what is opened after it stays open like anything else.
   */
  lemma {:induction false} OpenIff(c: Config, inputs: seq<Input>, id: string)
    requires NoneEnds(c, inputs)
    ensures HasTool(Run(c, inputs).active, id) <==> LeftOpen(inputs, id)
  {
    if inputs != [] {
      var n := |inputs| - 1;
      NoneEndsSnoc(c, inputs);
      OpenIff(c, inputs[..n], id);
      ExitIff(c, inputs[..n]);
      RunKeeps(c, inputs[..n]);
      StepTools(c, Run(c, inputs[..n]), inputs[n], id);
      LeftOpenSnoc(inputs, id);
    }
  }

  /**
   * What an ended run leaves open. Result, end of stream and error leave nothing; the turn limit, the stop file
   * and the exit after a signal leave exactly what the inputs before them left open.
   */
  lemma {:induction false} ExitsCloseTools(c: Config, inputs: seq<Input>, id: string)
    requires inputs != [] && NoneEnds(c, inputs[..|inputs| - 1]) && Ends(c, inputs, |inputs| - 1)
    ensures var n, s := |inputs| - 1, Run(c, inputs);
            && s.exit == Some(ExitOf(inputs[n]))
            && (Open(s.calls, id) == 1 <==> !ClosesTools(ExitOf(inputs[n])) && LeftOpen(inputs[..n], id))
            && Open(s.calls, id) <= 1
  {
    var n := |inputs| - 1;
    EndedByFirst(c, inputs, n);
    OpenIff(c, inputs[..n], id);
    ExitIff(c, inputs[..n]);
    RunKeeps(c, inputs[..n]);
    StepTools(c, Run(c, inputs[..n]), inputs[n], id);
    RunKeeps(c, inputs);
    ToolsPair(c, inputs, id);
  }

  // ---------------------------------------------------------------- after a signal

  lemma DrainOpens(before: seq<Input>, drain: seq<Input>, id: string)
    ensures LeftOpen(before + [Signal] + drain, id) <==> LeftOpen(drain, id)
  {
    var all, k := before + [Signal] + drain, |before| + 1;
    assert forall j :: 0 <= j < |drain| ==> all[k + j] == drain[j];
    if i :| OpenSince(drain, i, id) {
      assert OpenSince(all, k + i, id);
    }
    if i :| OpenSince(all, i, id) {
      assert Closes(all[k - 1], id);
      assert OpenSince(drain, i - k, id);
    }
  }

  /**
   * The drain. Between a signal and the exit of the process the phase still takes inputs. If none of them ends
   * it, the run ends without a terminal event, and open are exactly the tools the drain opened and left open.
   */
  lemma {:induction false} DrainedRun(c: Config, before: seq<Input>, drain: seq<Input>, id: string)
    requires NoneEnds(c, before + [Signal] + drain)
    ensures var s := Run(c, before + [Signal] + drain + [ProcessExits]);
            && s.exit == Some(BySignal) && NoTerminal(s.calls)
            && Open(s.calls, id) == if LeftOpen(drain, id) then 1 else 0
  {
    var all := before + [Signal] + drain;
    var inputs := all + [ProcessExits];
    assert inputs[..|all|] == all && all[|before|] == Signal;
    assert Ends(c, inputs, |all|);
    ExitsCloseTools(c, inputs, id);
    DrainOpens(before, drain, id);
    OneTerminalEventLast(c, inputs);
    ToolsPair(c, inputs, id);
  }

  /**
   * A signalled run sends a terminal event exactly if an ending input falls into the drain. If none does, open
   * at its exit are exactly the tools that were opened in the drain and left open.
   */
  lemma {:induction false} SignalIff(c: Config, before: seq<Input>, drain: seq<Input>)
    requires NoneEnds(c, before) && ProcessExits !in drain
    ensures var all := before + [Signal] + drain;
            var s := Run(c, all + [ProcessExits]);
            && s.exit.Some?
            && ((exists e :: e in s.calls && Terminal(e)) <==> exists i :: |before| < i < |all| && Ends(c, all, i))
            && (NoneEnds(c, all) ==> forall id: string :: Open(s.calls, id) == if LeftOpen(drain, id) then 1 else 0)
  {
    var all := before + [Signal] + drain;
    var inputs := all + [ProcessExits];
    SignalDoesNotEnd(c, before, drain);
    if NoneEnds(c, all) {
      forall id: string ensures Open(Run(c, inputs).calls, id) == if LeftOpen(drain, id) then 1 else 0 {
        DrainedRun(c, before, drain, id);
      }
      DrainedRun(c, before, drain, "");
    } else {
      var i := FirstEnd(c, all);
      assert all[..i] == inputs[..i];
      EndedByFirst(c, inputs, i);
      OneTerminalEventLast(c, inputs);
      assert Run(c, inputs).calls[|Run(c, inputs).calls| - 1] in Run(c, inputs).calls;
    }
  }

  lemma SignalDoesNotEnd(c: Config, before: seq<Input>, drain: seq<Input>)
    requires NoneEnds(c, before) && ProcessExits !in drain
    ensures var all := before + [Signal] + drain;
            && (NoneEnds(c, all) <==> forall i :: |before| < i < |all| ==> !Ends(c, all, i))
            && (forall i :: 0 <= i < |all| && Ends(c, all, i) ==> all[i] != ProcessExits)
  {
    var all := before + [Signal] + drain;
    forall i | 0 <= i < |all| && Ends(c, all, i) ensures i > |before| && all[i] == drain[i - |before| - 1] {
      assert all[..|before|] == before;
      if i < |before| {
        PrefixEnds(c, all, |before|, i);
      }
    }
  }

  lemma {:induction false} FirstEnd(c: Config, inputs: seq<Input>) returns (i: nat)
    requires !NoneEnds(c, inputs)
    ensures i < |inputs| && Ends(c, inputs, i) && NoneEnds(c, inputs[..i])
  {
    var n := |inputs| - 1;
    NoneEndsSnoc(c, inputs);
    if NoneEnds(c, inputs[..n]) {
      i := n;
    } else {
      i := FirstEnd(c, inputs[..n]);
      PrefixEnds(c, inputs, n, i);
      assert inputs[..n][..i] == inputs[..i];
    }
  }

  // ---------------------------------------------------------------- runs that leave a tool open

  lemma {:induction false} TwoInputs(c: Config, x: Input, y: Input)
    ensures Run(c, [x]) == Step(c, Begin(c), x) && Run(c, [x, y]) == Step(c, Step(c, Begin(c), x), y)
  {
    assert [x][..0] == [] && [x, y][..1] == [x];
  }

  lemma FirstToolOpens(c: Config, id: string, name: string)
    requires id != ""
    ensures var s := Step(c, Begin(c), ToolHook(id, name, None));
            s.active == [Tool(id, name)] && s.exit.None? && s.turn == 0 && HasTool(s.active, id)
  {
    assert Tool(id, name) in [Tool(id, name)];
  }

  /** The turn limit really can leave a tool open. */
  lemma TurnLimitLeavesToolOpen()
    ensures var s := Run(Config(1, "root"), [ToolHook("t", "Bash", None), Received(MessageStart, false)]);
            s.exit == Some(ByTurnLimit) && Open(s.calls, "t") == 1
  {
    var c := Config(1, "root");
    TwoInputs(c, ToolHook("t", "Bash", None), Received(MessageStart, false));
    FirstToolOpens(c, "t", "Bash");
    ToolsPair(c, [ToolHook("t", "Bash", None), Received(MessageStart, false)], "t");
  }

  /** So can the stop file. */
  lemma StopFileLeavesToolOpen(m: Message)
    ensures var s := Run(Config(9, "root"), [ToolHook("t", "Bash", None), Received(m, true)]);
            s.exit == Some(ByStopFile) && Open(s.calls, "t") == 1
  {
    var c := Config(9, "root");
    TwoInputs(c, ToolHook("t", "Bash", None), Received(m, true));
    FirstToolOpens(c, "t", "Bash");
    ToolsPair(c, [ToolHook("t", "Bash", None), Received(m, true)], "t");
  }

  /** A tool started while the process drains is never closed. */
  lemma {:induction false} DrainLeavesToolOpen(c: Config)
    ensures var s := Run(c, [Signal, ToolHook("u", "Bash", None), ProcessExits]);
            s.exit == Some(BySignal) && Open(s.calls, "u") == 1
  {
    var inputs := [Signal, ToolHook("u", "Bash", None)];
    assert [] + [Signal] + [ToolHook("u", "Bash", None)] == inputs;
    assert OpenSince([ToolHook("u", "Bash", None)], 0, "u");
    DrainedRun(c, [], [ToolHook("u", "Bash", None)], "u");
    assert inputs + [ProcessExits] == [Signal, ToolHook("u", "Bash", None), ProcessExits];
  }

  /** And a result that arrives then still completes the run. */
  lemma {:induction false} DrainCanComplete(c: Config)
    ensures var s := Run(c, [Signal, Received(ResultMessage(false), false)]);
            s.exit == Some(ByResult) && s.calls == Begin(c).calls + [Complete(Completed, 0)]
  {
    TwoInputs(c, Signal, Received(ResultMessage(false), false));
    assert CloseAll(Begin(c), true) == Begin(c);
    assert CloseAll(Begin(c).(draining := true), false) == Begin(c).(draining := true);
  }
}
