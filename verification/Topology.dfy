/** Subagent topology: which node events are sent, and which type each subagent is labelled with. */
module Topology {
  import opened Common
  import opened TokenBatching

  /** The SDK's task messages; `node` is the fresh random id the runner makes up for a started task. */
  datatype TaskMsg =
    | TaskStarted(taskId: string, taskType: Option<string>, node: string)
    | TaskProgress(taskId: string)
    | TaskNotification(taskId: string)

  datatype Tracker = Tracker(queue: seq<string>, nodes: map<string, string>, rootEmitted: bool)

  const LOCAL_AGENT := Some("local_agent")

  function Hook(t: Tracker, agentType: string): Tracker {
    if agentType == "" then t else t.(queue := t.queue + [agentType])
  }

  predicate Substitutes(t: Tracker, taskType: Option<string>) {
    taskType == LOCAL_AGENT && t.queue != []
  }

  function Label(t: Tracker, taskType: Option<string>): Option<string> {
    if Substitutes(t, taskType) then Some(t.queue[0]) else taskType
  }

  function Handle(t: Tracker, m: TaskMsg): Tracker {
    match m
    case TaskStarted(taskId, taskType, node) =>
      if taskId == "" then t
      else t.(queue := if Substitutes(t, taskType) then t.queue[1..] else t.queue,
              nodes := t.nodes[taskId := node],
              rootEmitted := true)
    case TaskProgress(_) => t
    case TaskNotification(taskId) => t.(nodes := t.nodes - {taskId})
  }

  /** The events the message causes. */
  function Emits(t: Tracker, m: TaskMsg, root: string): seq<AgentEvent> {
    match m
    case TaskStarted(taskId, taskType, node) =>
      if taskId == "" then []
      else (if t.rootEmitted then [] else [TopologySpawned(root, None, None)])
           + [TopologySpawned(node, Some(root), Label(t, taskType))]
    case TaskProgress(taskId) => if taskId in t.nodes then [TopologyProgress(t.nodes[taskId])] else []
    case TaskNotification(taskId) => if taskId in t.nodes then [TopologyCompleted(t.nodes[taskId])] else []
  }

  // ---------------------------------------------------------------- runs

  datatype Input = SubagentStart(agentType: string) | Task(m: TaskMsg)

  const FreshTracker := Tracker([], map[], false)

  function Take(t: Tracker, input: Input): Tracker {
    match input
    case SubagentStart(agentType) => Hook(t, agentType)
    case Task(m) => Handle(t, m)
  }

  function Track(t: Tracker, inputs: seq<Input>): Tracker {
    if inputs == [] then t else Take(Track(t, inputs[..|inputs| - 1]), inputs[|inputs| - 1])
  }

  function EmitsFor(t: Tracker, input: Input, root: string): seq<AgentEvent> {
    match input
    case SubagentStart(_) => []
    case Task(m) => Emits(t, m, root)
  }

  /** All events sent for a sequence of inputs. */
  function Sent(t: Tracker, inputs: seq<Input>, root: string): seq<AgentEvent> {
    if inputs == [] then []
    else
      var init, last := inputs[..|inputs| - 1], inputs[|inputs| - 1];
      Sent(t, init, root) + EmitsFor(Track(t, init), last, root)
  }

  // ---------------------------------------------------------------- reports

  /** The node made up for the task when it was last started, unless the task was reported finished since. */
  function RunningNode(inputs: seq<Input>, taskId: string): Option<string> {
    if inputs == [] then None
    else
      var last := inputs[|inputs| - 1];
      if last.Task? && last.m.TaskStarted? && last.m.taskId == taskId && taskId != "" then Some(last.m.node)
      else if last.Task? && last.m.TaskNotification? && last.m.taskId == taskId then None
      else RunningNode(inputs[..|inputs| - 1], taskId)
  }

  lemma {:induction false} NodeIsRunning(t: Tracker, inputs: seq<Input>, taskId: string)
    requires t.nodes == map[]
    ensures var nodes := Track(t, inputs).nodes;
            if taskId in nodes then RunningNode(inputs, taskId) == Some(nodes[taskId]) else RunningNode(inputs, taskId) == None
  {
    if inputs != [] { NodeIsRunning(t, inputs[..|inputs| - 1], taskId); }
  }

  /**
   * Progress and completion of a running task are sent, for the node of its last start; for any other task nothing
   * is. A start is sent as a child of the root, which goes first if it was not sent yet.
   */
  lemma {:induction false} ReportsReachTheirNode(t: Tracker, inputs: seq<Input>, root: string, taskId: string, taskType: Option<string>, node: string)
    requires t.nodes == map[]
    ensures var t', running := Track(t, inputs), RunningNode(inputs, taskId);
            && Emits(t', TaskProgress(taskId), root) == (if running.Some? then [TopologyProgress(running.value)] else [])
            && Emits(t', TaskNotification(taskId), root) == (if running.Some? then [TopologyCompleted(running.value)] else [])
    ensures var t' := Track(t, inputs);
            var started := Emits(t', TaskStarted(taskId, taskType, node), root);
            if taskId == "" then started == []
            else && |started| == (if t'.rootEmitted then 1 else 2)
                 && (!t'.rootEmitted ==> started[0] == TopologySpawned(root, None, None))
                 && started[|started| - 1].TopologySpawned?
                 && started[|started| - 1].agentId == node && started[|started| - 1].parentId == Some(root)
                 && (taskType != Some("local_agent") ==> started[|started| - 1].agentType == taskType)
  {
    NodeIsRunning(t, inputs, taskId);
  }

  // ---------------------------------------------------------------- labels

  predicate IsLocalStart(input: Input) {
    input.Task? && input.m.TaskStarted? && input.m.taskId != "" && input.m.taskType == LOCAL_AGENT
  }

  /** The types the local starts are labelled with, read off the events sent for them. */
  function Labels(t: Tracker, inputs: seq<Input>, root: string): seq<Option<string>> {
    if inputs == [] then []
    else
      var init, last := inputs[..|inputs| - 1], inputs[|inputs| - 1];
      Labels(t, init, root)
      + if IsLocalStart(last) then
          var events := Emits(Track(t, init), last.m, root);
          [events[|events| - 1].agentType]
        else []
  }

  /** The types the hooks report, in order; a hook without a type reports none. */
  function Pushed(inputs: seq<Input>): seq<string> {
    if inputs == [] then []
    else
      var last := inputs[|inputs| - 1];
      Pushed(inputs[..|inputs| - 1]) + if last.SubagentStart? && last.agentType != "" then [last.agentType] else []
  }

  /** For each local start, how many types were reported before it. */
  function HooksBefore(inputs: seq<Input>): seq<nat> {
    if inputs == [] then []
    else
      var init, last := inputs[..|inputs| - 1], inputs[|inputs| - 1];
      HooksBefore(init) + if IsLocalStart(last) then [|Pushed(init)|] else []
  }

  /** How many of the first starts found a type waiting, if each takes one when there is one. */
  function Served(hooksBefore: seq<nat>): nat {
    if hooksBefore == [] then 0
    else
      var n := |hooksBefore| - 1;
      var earlier := Served(hooksBefore[..n]);
      if hooksBefore[n] > earlier then earlier + 1 else earlier
  }

  /** The label of a start: the next type not taken yet, or the task type itself. */
  function LabelAt(pushed: seq<string>, hooksBefore: seq<nat>, i: nat): Option<string>
    requires i < |hooksBefore| && hooksBefore[i] <= |pushed|
  {
    var taken := Served(hooksBefore[..i]);
    if hooksBefore[i] > taken then Some(pushed[taken]) else LOCAL_AGENT
  }

  predicate NoneEarly(hooksBefore: seq<nat>, i: nat)
    requires i < |hooksBefore|
  {
    forall j :: 0 <= j <= i ==> hooksBefore[j] > j
  }

  lemma {:induction false} ServedBound(hooksBefore: seq<nat>)
    ensures Served(hooksBefore) <= |hooksBefore|
    ensures Served(hooksBefore) == |hooksBefore| <==> forall j :: 0 <= j < |hooksBefore| ==> hooksBefore[j] > j
  {
    if hooksBefore != [] {
      ServedBound(hooksBefore[..|hooksBefore| - 1]);
    }
  }

  lemma {:induction false} HooksBeforeBound(inputs: seq<Input>)
    ensures forall i :: 0 <= i < |HooksBefore(inputs)| ==> HooksBefore(inputs)[i] <= |Pushed(inputs)|
    ensures Served(HooksBefore(inputs)) <= |Pushed(inputs)|
  {
    if inputs != [] {
      var init, last := inputs[..|inputs| - 1], inputs[|inputs| - 1];
      HooksBeforeBound(init);
      if IsLocalStart(last) {
        assert HooksBefore(inputs)[..|HooksBefore(init)|] == HooksBefore(init);
      } else {
        assert HooksBefore(inputs) == HooksBefore(init);
      }
    }
  }

  /** The queue is what the reported types leave after those taken. */
  lemma {:induction false} QueueIsRest(inputs: seq<Input>, rootEmitted: bool)
    ensures Served(HooksBefore(inputs)) <= |Pushed(inputs)|
    ensures Track(FreshTracker.(rootEmitted := rootEmitted), inputs).queue == Pushed(inputs)[Served(HooksBefore(inputs))..]
  {
    HooksBeforeBound(inputs);
    if inputs != [] {
      var init, last := inputs[..|inputs| - 1], inputs[|inputs| - 1];
      QueueIsRest(init, rootEmitted);
      if IsLocalStart(last) {
        assert HooksBefore(inputs)[..|HooksBefore(init)|] == HooksBefore(init);
        assert Pushed(inputs) == Pushed(init);
      } else {
        assert HooksBefore(inputs) == HooksBefore(init);
      }
    }
  }

  /**
   * Every label sent, by the inputs alone: the i-th local start gets the first reported type that no earlier
   * start took, and keeps its task type if there is none.
   */
  lemma {:induction false} LabelsAreServed(inputs: seq<Input>, rootEmitted: bool, root: string, i: nat)
    requires i < |HooksBefore(inputs)|
    ensures var labels := Labels(FreshTracker.(rootEmitted := rootEmitted), inputs, root);
            && |labels| == |HooksBefore(inputs)| && HooksBefore(inputs)[i] <= |Pushed(inputs)|
            && labels[i] == LabelAt(Pushed(inputs), HooksBefore(inputs), i)
  {
    var t := FreshTracker.(rootEmitted := rootEmitted);
    var init, last := inputs[..|inputs| - 1], inputs[|inputs| - 1];
    HooksBeforeBound(inputs);
    HooksBeforeBound(init);
    LabelCount(init, t, root);
    if i < |HooksBefore(init)| {
      LabelsAreServed(init, rootEmitted, root, i);
      assert HooksBefore(inputs)[..i] == HooksBefore(init)[..i];
      LaterHooksDoNotMatter(Pushed(init), Pushed(inputs), HooksBefore(init), HooksBefore(inputs), i);
    } else {
      QueueIsRest(init, rootEmitted);
      assert HooksBefore(inputs)[..i] == HooksBefore(init);
      assert Pushed(inputs) == Pushed(init);
    }
  }

  lemma {:induction false} LabelCount(inputs: seq<Input>, t: Tracker, root: string)
    ensures |Labels(t, inputs, root)| == |HooksBefore(inputs)|
  {
    if inputs != [] {
      LabelCount(inputs[..|inputs| - 1], t, root);
    }
  }

  lemma LaterHooksDoNotMatter(pushed: seq<string>, pushed': seq<string>, hooks: seq<nat>, hooks': seq<nat>, i: nat)
    requires i < |hooks| && i < |hooks'| && hooks[..i] == hooks'[..i] && hooks[i] == hooks'[i]
    requires hooks[i] <= |pushed| && pushed <= pushed'
    ensures LabelAt(pushed, hooks, i) == LabelAt(pushed', hooks', i)
  {
  }

  predicate DistinctTypes(pushed: seq<string>) {
    "local_agent" !in pushed && forall i, j :: 0 <= i < j < |pushed| ==> pushed[i] != pushed[j]
  }

  /**
   * Label alignment. If, for every j up to i, more than j types were reported before the j-th local start, the
   * i-th start is labelled with the i-th type. If the types can be told apart, it is so only then.
   */
  lemma {:induction false} LabelsAlignIff(inputs: seq<Input>, rootEmitted: bool, root: string, i: nat)
    requires i < |HooksBefore(inputs)|
    ensures var labels := Labels(FreshTracker.(rootEmitted := rootEmitted), inputs, root);
            var pushed := Pushed(inputs);
            && |labels| == |HooksBefore(inputs)|
            && (NoneEarly(HooksBefore(inputs), i) ==> i < |pushed| && labels[i] == Some(pushed[i]))
            && (DistinctTypes(pushed) && i < |pushed| ==> (labels[i] == Some(pushed[i]) <==> NoneEarly(HooksBefore(inputs), i)))
  {
    var hooks, pushed := HooksBefore(inputs), Pushed(inputs);
    LabelsAreServed(inputs, rootEmitted, root, i);
    ServedBound(hooks[..i]);
    assert NoneEarly(hooks, i) <==> Served(hooks[..i]) == i && hooks[i] > i;
  }

  /** After one early start every later label is one of an earlier position, or no reported type at all. */
  lemma {:induction false} OneEarlyStartShiftsAll(inputs: seq<Input>, rootEmitted: bool, root: string, early: nat, i: nat)
    requires early < i < |HooksBefore(inputs)| && HooksBefore(inputs)[early] <= early
    ensures var labels := Labels(FreshTracker.(rootEmitted := rootEmitted), inputs, root);
            |labels| == |HooksBefore(inputs)| && (labels[i] == LOCAL_AGENT || exists k :: 0 <= k < i && k < |Pushed(inputs)| && labels[i] == Some(Pushed(inputs)[k]))
  {
    var hooks := HooksBefore(inputs);
    LabelsAreServed(inputs, rootEmitted, root, i);
    ServedBound(hooks[..i]);
    assert hooks[..i][early] <= early;
  }

  /** A start, two hooks, a start: the second start is labelled with the first hook's type. */
  lemma {:induction false} SecondStartGetsFirstType(root: string)
    ensures var start1, start2 := Task(TaskStarted("1", LOCAL_AGENT, "m")), Task(TaskStarted("2", LOCAL_AGENT, "n"));
            var inputs := [start1, SubagentStart("A"), SubagentStart("B"), start2];
            Labels(FreshTracker, inputs, root) == [LOCAL_AGENT, Some("A")]
  {
    var start1, start2 := Task(TaskStarted("1", LOCAL_AGENT, "m")), Task(TaskStarted("2", LOCAL_AGENT, "n"));
    var inputs := [start1, SubagentStart("A"), SubagentStart("B"), start2];
    assert inputs[..3] == [start1, SubagentStart("A"), SubagentStart("B")];
    assert inputs[..3][..2] == [start1, SubagentStart("A")] && [start1, SubagentStart("A")][..1] == [start1] && [start1][..0] == [];
    var t1 := Track(FreshTracker, [start1]);
    assert t1 == Handle(FreshTracker, start1.m) && t1.queue == [];
    var t2 := Track(FreshTracker, [start1, SubagentStart("A")]);
    assert t2 == Hook(t1, "A") && t2.queue == ["A"];
    var t3 := Track(FreshTracker, inputs[..3]);
    assert t3 == Hook(t2, "B") && t3.queue == ["A", "B"];
    assert Labels(FreshTracker, [start1], root) == [LOCAL_AGENT];
    assert Labels(FreshTracker, [start1, SubagentStart("A")], root) == [LOCAL_AGENT];
    assert Labels(FreshTracker, inputs[..3], root) == [LOCAL_AGENT];
  }

  // ---------------------------------------------------------------- lifecycle

  function Spawned(events: seq<AgentEvent>): set<string> {
    if events == [] then {}
    else
      var last := events[|events| - 1];
      Spawned(events[..|events| - 1]) + if last.TopologySpawned? then {last.agentId} else {}
  }

  function CompletedNodes(events: seq<AgentEvent>): set<string> {
    if events == [] then {}
    else
      var last := events[|events| - 1];
      CompletedNodes(events[..|events| - 1]) + if last.TopologyCompleted? then {last.agentId} else {}
  }

  /** A node is spawned once, below a node already there; it reports only between its spawn and its single completion. */
  ghost predicate Lifecycle(events: seq<AgentEvent>) {
    events != [] ==>
      var init, last := events[..|events| - 1], events[|events| - 1];
      && Lifecycle(init)
      && (last.TopologySpawned? ==> last.agentId !in Spawned(init) && (last.parentId.Some? ==> last.parentId.value in Spawned(init)))
      && (last.TopologyProgress? || last.TopologyCompleted? ==> last.agentId in Spawned(init) && last.agentId !in CompletedNodes(init))
  }

  lemma {:induction false} LifecycleSnoc(events: seq<AgentEvent>, e: AgentEvent)
    requires Lifecycle(events)
    requires e.TopologySpawned? ==> e.agentId !in Spawned(events) && (e.parentId.Some? ==> e.parentId.value in Spawned(events))
    requires e.TopologyProgress? || e.TopologyCompleted? ==> e.agentId in Spawned(events) && e.agentId !in CompletedNodes(events)
    ensures Lifecycle(events + [e])
  {
    assert (events + [e])[..|events|] == events;
  }

  /** What ties the tracker to the events sent so far. */
  ghost predicate Live(t: Tracker, events: seq<AgentEvent>, root: string) {
    && Lifecycle(events)
    && (t.rootEmitted <==> root in Spawned(events))
    && (forall id :: id in t.nodes ==> t.nodes[id] in Spawned(events) - CompletedNodes(events) - {root})
    && (forall a, b :: a in t.nodes && b in t.nodes && a != b ==> t.nodes[a] != t.nodes[b])
    && CompletedNodes(events) <= Spawned(events)
  }

  lemma {:induction false} AppendedEvents(events: seq<AgentEvent>, e: AgentEvent)
    ensures Spawned(events + [e]) == Spawned(events) + if e.TopologySpawned? then {e.agentId} else {}
    ensures CompletedNodes(events + [e]) == CompletedNodes(events) + if e.TopologyCompleted? then {e.agentId} else {}
  {
    assert (events + [e])[..|events|] == events;
  }

  lemma RootKeepsLive(t: Tracker, events: seq<AgentEvent>, root: string)
    requires Live(t, events, root) && !t.rootEmitted
    ensures Live(t.(rootEmitted := true), events + [TopologySpawned(root, None, None)], root)
  {
    var e := TopologySpawned(root, None, None);
    LifecycleSnoc(events, e);
    AppendedEvents(events, e);
  }

  lemma {:induction false} ChildKeepsLive(t: Tracker, events: seq<AgentEvent>, root: string, taskId: string, e: AgentEvent)
    requires Live(t, events, root) && t.rootEmitted
    requires e.TopologySpawned? && e.parentId == Some(root) && e.agentId != root && e.agentId !in Spawned(events)
    ensures Live(t.(nodes := t.nodes[taskId := e.agentId]), events + [e], root)
  {
    LifecycleSnoc(events, e);
    AppendedEvents(events, e);
  }

  /** Live looks at the node map and the root flag only. */
  lemma LiveDependsOn(t: Tracker, t': Tracker, events: seq<AgentEvent>, root: string)
    requires Live(t, events, root) && t'.nodes == t.nodes && t'.rootEmitted == t.rootEmitted
    ensures Live(t', events, root)
  {
  }

  lemma {:induction false} StartKeepsLive(t: Tracker, m: TaskMsg, events: seq<AgentEvent>, root: string)
    requires Live(t, events, root) && m.TaskStarted? && m.node != root && m.node !in Spawned(events)
    ensures Live(Handle(t, m), events + Emits(t, m, root), root)
  {
    if m.taskId == "" {
      assert events + Emits(t, m, root) == events;
    } else {
      var rootEvent, child := TopologySpawned(root, None, None), TopologySpawned(m.node, Some(root), Label(t, m.taskType));
      var t1, mid := t.(rootEmitted := true), if t.rootEmitted then events else events + [rootEvent];
      if !t.rootEmitted {
        RootKeepsLive(t, events, root);
        AppendedEvents(events, rootEvent);
      }
      ChildKeepsLive(t1, mid, root, m.taskId, child);
      LiveDependsOn(t1.(nodes := t1.nodes[m.taskId := m.node]), Handle(t, m), mid + [child], root);
      assert events + Emits(t, m, root) == mid + [child];
    }
  }

  lemma ReportKeepsLive(t: Tracker, m: TaskMsg, events: seq<AgentEvent>, root: string)
    requires Live(t, events, root) && !m.TaskStarted?
    ensures Live(Handle(t, m), events + Emits(t, m, root), root)
  {
    if m.taskId in t.nodes {
      var e := Emits(t, m, root)[0];
      var all := events + [e];
      LifecycleSnoc(events, e);
      AppendedEvents(events, e);
    } else {
      assert events + Emits(t, m, root) == events;
    }
  }
}
