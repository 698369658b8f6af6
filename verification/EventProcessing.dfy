/**
 * The webhook pipeline: a delivery is logged under a unique key, matched against the subscriptions of its source,
 * and turned into tasks. Redeliveries must not do anything twice.
 */
module EventProcessing {
  import opened Common

  type Id = string

  datatype Subscription = Subscription(id: Id, source: Id, isEnabled: bool, eventTypes: seq<string>, filters: seq<string>)

  datatype Status = Received | TaskCreated | Matched | Ignored

  datatype Match = Match(subscription: Id, task: Option<Id>)

  /** The unique index of the log. */
  datatype Key = Key(source: Id, delivery: Id)

  datatype LogRow = LogRow(id: Id, key: Key, status: Status, matched: seq<Match>)

  /** A task, with the delivery and the subscription it was made for. */
  datatype Task = Task(id: Id, key: Key, subscription: Id)

  /** Does the text of a refused insert mention a constraint? */
  datatype DbError = ConstraintText | OtherText

  /** Creating a task returns one, or an error, or throws. */
  datatype Creation = Made(id: Id) | NotMade | CreationThrows

  /** A bookkeeping call is done, or reports that it was not, or throws. */
  datatype Write = Written | NotWritten | WriteThrows

  /** What the surroundings do while one delivery is processed; `count` covers what follows the creation of a task. */
  datatype Env = Env(
    logId: Id,
    insertError: Option<DbError>,
    queryFails: bool,
    subscriptions: seq<Subscription>,
    matches: string -> bool,
    newTask: Id -> Creation,
    count: Id -> Write,
    closeFails: bool,
    sourceCount: Write
  )

  datatype Delivery = Delivery(key: Key, eventType: string, env: Env)

  /** The tables, and the match counts that were due but not written. */
  datatype State = State(log: seq<LogRow>, tasks: seq<Task>, matchedCount: map<Id, nat>, eventCount: map<Id, nat>, missed: seq<Id>)

  datatype Answer = Duplicate | Failed | Done(logId: Id, processed: bool, matchCount: nat, tasksCreated: seq<Id>)

  function At(m: map<Id, nat>, k: Id): nat {
    if k in m then m[k] else 0
  }

  // ---------------------------------------------------------------- matching

  predicate TypeFits(sub: Subscription, eventType: string) {
    sub.eventTypes == [] || eventType in sub.eventTypes
  }

  /** findMatchingSubscriptions: enabled, of this source, for this type. */
  function Selects(d: Delivery): Subscription -> bool {
    (sub: Subscription) => sub.source == d.key.source && sub.isEnabled && TypeFits(sub, d.eventType)
  }

  function Matching(d: Delivery): seq<Subscription> {
    Filter(d.env.subscriptions, Selects(d))
  }

  predicate PassesFilters(d: Delivery, sub: Subscription) {
    forall f :: f in sub.filters ==> d.env.matches(f)
  }

  predicate Creates(d: Delivery, sub: Subscription) {
    PassesFilters(d, sub) && d.env.newTask(sub.id).Made?
  }

  /** An exception while this subscription is served; nothing catches it before the caller. */
  predicate Aborts(d: Delivery, sub: Subscription) {
    PassesFilters(d, sub) && (d.env.newTask(sub.id).CreationThrows? || (Creates(d, sub) && d.env.count(sub.id).WriteThrows?))
  }

  predicate Aborted(d: Delivery, subs: seq<Subscription>) {
    subs != [] && (Aborted(d, subs[..|subs| - 1]) || Aborts(d, subs[|subs| - 1]))
  }

  function RecordOf(d: Delivery, sub: Subscription): seq<Match> {
    if !PassesFilters(d, sub) || d.env.newTask(sub.id).CreationThrows? then []
    else [Match(sub.id, if Creates(d, sub) then Some(d.env.newTask(sub.id).id) else None)]
  }

  function TaskFor(d: Delivery, sub: Subscription): seq<Task> {
    if Creates(d, sub) then [Task(d.env.newTask(sub.id).id, d.key, sub.id)] else []
  }

  /** What the log row will list. */
  function Records(d: Delivery, subs: seq<Subscription>): seq<Match> {
    if subs == [] then []
    else
      var init, last := subs[..|subs| - 1], subs[|subs| - 1];
      Records(d, init) + if Aborted(d, init) then [] else RecordOf(d, last)
  }

  /** The tasks that get made. */
  function Created(d: Delivery, subs: seq<Subscription>): seq<Task> {
    if subs == [] then []
    else
      var init, last := subs[..|subs| - 1], subs[|subs| - 1];
      Created(d, init) + if Aborted(d, init) then [] else TaskFor(d, last)
  }

  function TaskIds(tasks: seq<Task>): seq<Id> {
    seq(|tasks|, i requires 0 <= i < |tasks| => tasks[i].id)
  }

  function ResolveEventStatus(tasksCreated: nat, matched: nat): Status {
    if tasksCreated > 0 then TaskCreated else if matched > 0 then Matched else Ignored
  }

  // ---------------------------------------------------------------- one delivery

  predicate Logged(log: seq<LogRow>, key: Key) {
    exists row :: row in log && row.key == key
  }

  predicate Accepts(log: seq<LogRow>, d: Delivery) {
    d.env.insertError.None? && !Logged(log, d.key)
  }

  function ServeOne(s: State, d: Delivery, sub: Subscription): State {
    if !Creates(d, sub) then s
    else
      var made := s.(tasks := s.tasks + TaskFor(d, sub));
      if d.env.count(sub.id).Written? then made.(matchedCount := made.matchedCount[sub.id := At(made.matchedCount, sub.id) + 1])
      else made.(missed := made.missed + [sub.id])
  }

  function Serve(s: State, d: Delivery, subs: seq<Subscription>): State {
    if subs == [] then s
    else
      var init, last := subs[..|subs| - 1], subs[|subs| - 1];
      var t := Serve(s, d, init);
      if Aborted(d, init) then t else ServeOne(t, d, last)
  }

  function CloseRow(log: seq<LogRow>, id: Id, status: Status, matched: seq<Match>): seq<LogRow> {
    seq(|log|, i requires 0 <= i < |log| => if log[i].id == id then log[i].(status := status, matched := matched) else log[i])
  }

  function FinalStatus(d: Delivery): Status {
    ResolveEventStatus(|Created(d, Matching(d))|, |Records(d, Matching(d))|)
  }

  function Finish(s: State, d: Delivery): State {
    var closed := if d.env.closeFails then s else s.(log := CloseRow(s.log, d.env.logId, FinalStatus(d), Records(d, Matching(d))));
    if !d.env.sourceCount.Written? then closed
    else closed.(eventCount := closed.eventCount[d.key.source := At(closed.eventCount, d.key.source) + 1])
  }

  function Stored(s: State, d: Delivery): State {
    s.(log := s.log + [LogRow(d.env.logId, d.key, Received, [])])
  }

  function Process(s: State, d: Delivery): State {
    if !Accepts(s.log, d) then s
    else if d.env.queryFails then Stored(s, d)
    else
      var served := Serve(Stored(s, d), d, Matching(d));
      if Aborted(d, Matching(d)) then served else Finish(served, d)
  }

  function Reply(s: State, d: Delivery): Answer {
    if !Accepts(s.log, d) then if d.env.insertError == Some(OtherText) then Failed else Duplicate
    else if d.env.queryFails || Aborted(d, Matching(d)) || d.env.sourceCount.WriteThrows? then Failed
    else
      Done(d.env.logId, |Records(d, Matching(d))| > 0, |Records(d, Matching(d))|, TaskIds(Created(d, Matching(d))))
  }

  /** The table's life: deliveries arrive, and the retention job forgets log rows. */
  datatype Action = Deliver(d: Delivery) | Forget(keys: set<Key>)

  function Forgotten(log: seq<LogRow>, keys: set<Key>): seq<LogRow> {
    Filter(log, (row: LogRow) => row.key !in keys)
  }

  function Step(s: State, a: Action): State {
    match a
    case Deliver(d) => Process(s, d)
    case Forget(keys) => s.(log := Forgotten(s.log, keys))
  }

  function Run(s: State, actions: seq<Action>): State {
    if actions == [] then s else Step(Run(s, actions[..|actions| - 1]), actions[|actions| - 1])
  }

  // ---------------------------------------------------------------- what one delivery changes

  lemma ServeOneFrame(s: State, d: Delivery, sub: Subscription)
    ensures ServeOne(s, d, sub).log == s.log && ServeOne(s, d, sub).eventCount == s.eventCount
    ensures ServeOne(s, d, sub).tasks == s.tasks + TaskFor(d, sub)
  {
  }

  lemma {:induction false} ServeFrame(s: State, d: Delivery, subs: seq<Subscription>)
    ensures Serve(s, d, subs).log == s.log && Serve(s, d, subs).eventCount == s.eventCount
    ensures Serve(s, d, subs).tasks == s.tasks + Created(d, subs)
  {
    if subs != [] {
      var n := |subs| - 1;
      var t := Serve(s, d, subs[..n]);
      ServeFrame(s, d, subs[..n]);
      if Aborted(d, subs[..n]) {
        assert Created(d, subs) == Created(d, subs[..n]);
      } else {
        ServeOneFrame(t, d, subs[n]);
        assert (s.tasks + Created(d, subs[..n])) + TaskFor(d, subs[n]) == s.tasks + Created(d, subs);
      }
    }
  }

  lemma {:induction false} ProcessTasks(s: State, d: Delivery)
    ensures Process(s, d).tasks == if Accepts(s.log, d) && !d.env.queryFails then s.tasks + Created(d, Matching(d)) else s.tasks
  {
    ServeFrame(Stored(s, d), d, Matching(d));
  }

  lemma StoredLog(s: State, d: Delivery, key: Key)
    ensures Logged(Stored(s, d).log, key) <==> Logged(s.log, key) || key == d.key
  {
    var log := Stored(s, d).log;
    assert log[|s.log|].key == d.key;
    if row :| row in s.log && row.key == key {
      assert row in log;
    }
  }

  predicate KeysAlike(a: seq<LogRow>, b: seq<LogRow>) {
    |a| == |b| && forall i :: 0 <= i < |a| ==> a[i].key == b[i].key
  }

  lemma KeysOfFinish(s: State, d: Delivery)
    ensures KeysAlike(Finish(s, d).log, s.log)
  {
  }

  lemma KeysOfProcess(s: State, d: Delivery)
    requires Accepts(s.log, d)
    ensures KeysAlike(Process(s, d).log, Stored(s, d).log)
  {
    var served := Serve(Stored(s, d), d, Matching(d));
    ServeFrame(Stored(s, d), d, Matching(d));
    KeysOfFinish(served, d);
  }

  lemma ProcessLog(s: State, d: Delivery, key: Key)
    ensures Logged(Process(s, d).log, key) <==> Logged(s.log, key) || (Accepts(s.log, d) && key == d.key)
  {
    if Accepts(s.log, d) {
      StoredLog(s, d, key);
      KeysOfProcess(s, d);
      SameKeys(Process(s, d).log, Stored(s, d).log, key);
    }
  }

  lemma SameKeys(a: seq<LogRow>, b: seq<LogRow>, key: Key)
    requires KeysAlike(a, b)
    ensures Logged(a, key) <==> Logged(b, key)
  {
    if Logged(a, key) {
      var i :| 0 <= i < |a| && a[i].key == key;
      assert b[i] in b;
    }
    if Logged(b, key) {
      var i :| 0 <= i < |b| && b[i].key == key;
      assert a[i] in a;
    }
  }

  lemma ForgottenLog(log: seq<LogRow>, keys: set<Key>, key: Key)
    ensures Logged(Forgotten(log, keys), key) <==> Logged(log, key) && key !in keys
  {
    forall row: LogRow {
      FilterMembers(log, (row: LogRow) => row.key !in keys, row);
    }
    if Logged(log, key) && key !in keys {
      var row :| row in log && row.key == key;
      assert row in Forgotten(log, keys);
    }
  }

  // ---------------------------------------------------------------- only first occurrences matter

  predicate Forgets(a: Action, key: Key) {
    a.Forget? && key in a.keys
  }

  /** A delivery the database did not refuse. What the pipeline made of it is not said. */
  predicate Reaches(a: Action, key: Key) {
    a.Deliver? && a.d.key == key && a.d.env.insertError.None?
  }

  /** Some delivery of the key got through, or its row was there at the start, and the row was not forgotten since. */
  predicate Remembered(log: seq<LogRow>, actions: seq<Action>, key: Key) {
    || (Logged(log, key) && forall k :: 0 <= k < |actions| ==> !Forgets(actions[k], key))
    || exists j :: 0 <= j < |actions| && Reaches(actions[j], key) && forall k :: j < k < |actions| ==> !Forgets(actions[k], key)
  }

  /** The i-th action is the first delivery of its key to get through, or the first since the key was forgotten. */
  predicate IsFirst(log: seq<LogRow>, actions: seq<Action>, i: nat)
    requires i < |actions|
  {
    actions[i].Deliver? && actions[i].d.env.insertError.None? && !Remembered(log, actions[..i], actions[i].d.key)
  }

  /** The run with every other delivery left out. */
  function Firsts(log: seq<LogRow>, actions: seq<Action>): seq<Action> {
    if actions == [] then []
    else
      var n := |actions| - 1;
      Firsts(log, actions[..n]) + if actions[n].Forget? || IsFirst(log, actions, n) then [actions[n]] else []
  }

  lemma RememberedSnoc(log: seq<LogRow>, actions: seq<Action>, key: Key)
    requires actions != []
    ensures var n := |actions| - 1;
            Remembered(log, actions, key) <==> Reaches(actions[n], key) || (Remembered(log, actions[..n], key) && !Forgets(actions[n], key))
  {
    var n := |actions| - 1;
    assert forall k :: 0 <= k < n ==> actions[..n][k] == actions[k];
    if Reaches(actions[n], key) {
      assert Remembered(log, actions, key);
    }
    if j :| 0 <= j < n && Reaches(actions[..n][j], key) && (forall k :: j < k < n ==> !Forgets(actions[..n][k], key)) && !Forgets(actions[n], key) {
      assert Reaches(actions[j], key);
    }
    if j :| 0 <= j < |actions| && Reaches(actions[j], key) && (forall k :: j < k < |actions| ==> !Forgets(actions[k], key)) && j < n {
      assert Reaches(actions[..n][j], key);
    }
  }

  /** The log remembers exactly that. */
  lemma {:induction false} LoggedIffRemembered(s: State, actions: seq<Action>, key: Key)
    ensures Logged(Run(s, actions).log, key) <==> Remembered(s.log, actions, key)
  {
    if actions != [] {
      var n := |actions| - 1;
      LoggedIffRemembered(s, actions[..n], key);
      RememberedSnoc(s.log, actions, key);
      match actions[n]
      case Deliver(d) => ProcessLog(Run(s, actions[..n]), d, key);
      case Forget(keys) => ForgottenLog(Run(s, actions[..n]).log, keys, key);
    }
  }

  lemma {:induction false} AcceptedIffFirst(s: State, actions: seq<Action>, i: nat)
    requires i < |actions| && actions[i].Deliver?
    ensures Accepts(Run(s, actions[..i]).log, actions[i].d) <==> IsFirst(s.log, actions, i)
  {
    LoggedIffRemembered(s, actions[..i], actions[i].d.key);
  }

  /** Running all deliveries leaves the same tables as running the first occurrences alone. */
  lemma {:induction false} OnlyFirstsMatter(s: State, actions: seq<Action>)
    ensures Run(s, actions) == Run(s, Firsts(s.log, actions))
  {
    if actions != [] {
      var n := |actions| - 1;
      OnlyFirstsMatter(s, actions[..n]);
      var kept := Firsts(s.log, actions[..n]);
      if actions[n].Deliver? {
        AcceptedIffFirst(s, actions, n);
      }
      if actions[n].Forget? || IsFirst(s.log, actions, n) {
        assert (kept + [actions[n]])[..|kept|] == kept;
      } else {
        assert Firsts(s.log, actions) == kept;
      }
    }
  }

  /** A key has two first occurrences only if its log row was forgotten in between. */
  lemma TwiceOnlyIfForgotten(log: seq<LogRow>, actions: seq<Action>, i: nat, j: nat)
    requires i < j < |actions| && IsFirst(log, actions, i) && IsFirst(log, actions, j) && actions[i].d.key == actions[j].d.key
    ensures exists k :: i < k < j && Forgets(actions[k], actions[i].d.key)
  {
    var key := actions[i].d.key;
    assert actions[..j][i] == actions[i] && Reaches(actions[..j][i], key);
    var k :| i < k < j && Forgets(actions[..j][k], key);
    assert Forgets(actions[k], key);
  }

  // ---------------------------------------------------------------- each delivery's tasks

  function TasksOf(tasks: seq<Task>, key: Key): seq<Task> {
    Filter(tasks, (t: Task) => t.key == key)
  }

  lemma {:induction false} CreatedAreOf(d: Delivery, subs: seq<Subscription>, key: Key)
    ensures TasksOf(Created(d, subs), key) == if key == d.key then Created(d, subs) else []
  {
    if subs != [] {
      var n := |subs| - 1;
      CreatedAreOf(d, subs[..n], key);
      var init := Created(d, subs[..n]);
      if Creates(d, subs[n]) && !Aborted(d, subs[..n]) {
        FilterSnoc(init, TaskFor(d, subs[n])[0], (t: Task) => t.key == key);
      } else {
        assert Created(d, subs) == init;
      }
    }
  }

  lemma {:induction false} TasksAfter(s: State, d: Delivery, key: Key)
    ensures TasksOf(Process(s, d).tasks, key)
            == TasksOf(s.tasks, key) + if Accepts(s.log, d) && !d.env.queryFails && d.key == key then Created(d, Matching(d)) else []
  {
    ProcessTasks(s, d);
    if Accepts(s.log, d) && !d.env.queryFails {
      FilterConcat(s.tasks, Created(d, Matching(d)), (t: Task) => t.key == key);
      CreatedAreOf(d, Matching(d), key);
    }
  }

  /** What a first occurrence is worth: nothing at all if the subscriptions could not be read. */
  function TasksOwed(d: Delivery): seq<Task> {
    if d.env.queryFails then [] else Created(d, Matching(d))
  }

  /** The tasks due to a key, by its first occurrences alone. */
  function Owed(log: seq<LogRow>, actions: seq<Action>, key: Key): seq<Task> {
    if actions == [] then []
    else
      var n := |actions| - 1;
      Owed(log, actions[..n], key)
      + if actions[n].Deliver? && actions[n].d.key == key && IsFirst(log, actions, n) then TasksOwed(actions[n].d) else []
  }

  lemma TasksAfterStep(s: State, a: Action, key: Key, first: bool)
    requires a.Deliver? ==> (Accepts(s.log, a.d) <==> first)
    ensures TasksOf(Step(s, a).tasks, key)
            == TasksOf(s.tasks, key) + if a.Deliver? && a.d.key == key && first then TasksOwed(a.d) else []
  {
    if a.Deliver? {
      TasksAfter(s, a.d, key);
    }
  }

  /** After any run a key has exactly the tasks it is owed: redeliveries add none, and a failed first occurrence stays without. */
  lemma {:induction false} ExactlyTheTasksOwed(s: State, actions: seq<Action>, key: Key)
    ensures TasksOf(Run(s, actions).tasks, key) == TasksOf(s.tasks, key) + Owed(s.log, actions, key)
  {
    if actions != [] {
      var n := |actions| - 1;
      var first := IsFirst(s.log, actions, n);
      ExactlyTheTasksOwed(s, actions[..n], key);
      if actions[n].Deliver? {
        AcceptedIffFirst(s, actions, n);
      }
      TasksAfterStep(Run(s, actions[..n]), actions[n], key, first);
    }
  }

  // ---------------------------------------------------------------- which subscriptions get tasks

  /** An enabled subscription of the delivery's source, for all types or for this one among others, with all its filters met. */
  ghost predicate Wants(d: Delivery, sub: Subscription) {
    && sub.source == d.key.source && sub.isEnabled
    && (|sub.eventTypes| == 0 || exists k :: 0 <= k < |sub.eventTypes| && sub.eventTypes[k] == d.eventType)
    && (forall k :: 0 <= k < |sub.filters| ==> d.env.matches(sub.filters[k]))
  }

  /** The subscription stops the delivery: it wants it, and its creation throws, or the count behind the created task. */
  ghost predicate Stops(d: Delivery, sub: Subscription) {
    && Wants(d, sub)
    && (d.env.newTask(sub.id).CreationThrows? || (d.env.newTask(sub.id).Made? && d.env.count(sub.id).WriteThrows?))
  }

  /** The first `n` subscriptions of the list let the delivery pass. */
  ghost predicate Undisturbed(d: Delivery, n: nat)
    requires n <= |d.env.subscriptions|
  {
    forall j :: 0 <= j < n ==> !Stops(d, d.env.subscriptions[j])
  }

  /** The i-th subscription of the list gets its task: creation returned one, and nothing threw before. */
  ghost predicate TaskDue(d: Delivery, i: nat)
    requires i < |d.env.subscriptions|
  {
    Wants(d, d.env.subscriptions[i]) && d.env.newTask(d.env.subscriptions[i].id).Made? && Undisturbed(d, i)
  }

  /** The i-th subscription is listed in the log: its creation returned, with or without a task. */
  ghost predicate RecordDue(d: Delivery, i: nat)
    requires i < |d.env.subscriptions|
  {
    Wants(d, d.env.subscriptions[i]) && !d.env.newTask(d.env.subscriptions[i].id).CreationThrows? && Undisturbed(d, i)
  }

  ghost function DueTasks(d: Delivery, n: nat): seq<Task>
    requires n <= |d.env.subscriptions|
  {
    if n == 0 then []
    else
      var sub := d.env.subscriptions[n - 1];
      DueTasks(d, n - 1) + if TaskDue(d, n - 1) then [Task(d.env.newTask(sub.id).id, d.key, sub.id)] else []
  }

  ghost function DueRecords(d: Delivery, n: nat): seq<Match>
    requires n <= |d.env.subscriptions|
  {
    if n == 0 then []
    else
      var sub := d.env.subscriptions[n - 1];
      var made := d.env.newTask(sub.id);
      DueRecords(d, n - 1) + if RecordDue(d, n - 1) then [Match(sub.id, if made.Made? then Some(made.id) else None)] else []
  }

  lemma WantsIff(d: Delivery, sub: Subscription)
    ensures Wants(d, sub) <==> Selects(d)(sub) && PassesFilters(d, sub)
  {
    if Selects(d)(sub) && PassesFilters(d, sub) {
      forall k | 0 <= k < |sub.filters| ensures d.env.matches(sub.filters[k]) {
        assert sub.filters[k] in sub.filters;
      }
    }
  }

  lemma ListSnoc(d: Delivery, n: nat)
    requires 0 < n <= |d.env.subscriptions|
    ensures var sub, kept := d.env.subscriptions[n - 1], Filter(d.env.subscriptions[..n - 1], Selects(d));
            Filter(d.env.subscriptions[..n], Selects(d)) == if Selects(d)(sub) then kept + [sub] else kept
  {
    assert d.env.subscriptions[..n] == d.env.subscriptions[..n - 1] + [d.env.subscriptions[n - 1]];
    FilterSnoc(d.env.subscriptions[..n - 1], d.env.subscriptions[n - 1], Selects(d));
  }

  lemma StopsIff(d: Delivery, sub: Subscription)
    ensures Stops(d, sub) <==> Selects(d)(sub) && Aborts(d, sub)
  {
    WantsIff(d, sub);
  }

  lemma {:induction false} AbortedSnoc(d: Delivery, kept: seq<Subscription>, sub: Subscription)
    ensures Aborted(d, kept + [sub]) <==> Aborted(d, kept) || Aborts(d, sub)
  {
    assert (kept + [sub])[..|kept|] == kept;
  }

  lemma {:induction false} AbortedIff(d: Delivery, n: nat)
    requires n <= |d.env.subscriptions|
    ensures Aborted(d, Filter(d.env.subscriptions[..n], Selects(d))) <==> !Undisturbed(d, n)
  {
    if n > 0 {
      var sub, kept := d.env.subscriptions[n - 1], Filter(d.env.subscriptions[..n - 1], Selects(d));
      AbortedIff(d, n - 1);
      ListSnoc(d, n);
      StopsIff(d, sub);
      AbortedSnoc(d, kept, sub);
      assert Undisturbed(d, n) <==> Undisturbed(d, n - 1) && !Stops(d, sub);
    }
  }

  lemma {:induction false} ServedNext(d: Delivery, kept: seq<Subscription>, sub: Subscription)
    ensures Created(d, kept + [sub]) == Created(d, kept) + if Aborted(d, kept) then [] else TaskFor(d, sub)
    ensures Records(d, kept + [sub]) == Records(d, kept) + if Aborted(d, kept) then [] else RecordOf(d, sub)
  {
    assert (kept + [sub])[..|kept|] == kept;
  }

  /** What the n-th subscription adds, whether it is selected or not. */
  lemma DueNext(d: Delivery, n: nat, kept: seq<Subscription>)
    requires 0 < n <= |d.env.subscriptions| && kept == Filter(d.env.subscriptions[..n - 1], Selects(d))
    ensures var sub := d.env.subscriptions[n - 1];
            && DueTasks(d, n) == DueTasks(d, n - 1) + (if Selects(d)(sub) && !Aborted(d, kept) then TaskFor(d, sub) else [])
            && DueRecords(d, n) == DueRecords(d, n - 1) + (if Selects(d)(sub) && !Aborted(d, kept) then RecordOf(d, sub) else [])
  {
    AbortedIff(d, n - 1);
    WantsIff(d, d.env.subscriptions[n - 1]);
  }

  lemma {:induction false} ServedAreDue(d: Delivery, n: nat)
    requires n <= |d.env.subscriptions|
    ensures Created(d, Filter(d.env.subscriptions[..n], Selects(d))) == DueTasks(d, n)
    ensures Records(d, Filter(d.env.subscriptions[..n], Selects(d))) == DueRecords(d, n)
  {
    if n > 0 {
      var sub, kept := d.env.subscriptions[n - 1], Filter(d.env.subscriptions[..n - 1], Selects(d));
      ServedAreDue(d, n - 1);
      ListSnoc(d, n);
      DueNext(d, n, kept);
      ServedNext(d, kept, sub);
    }
  }

  lemma {:induction false} DueTasksAre(d: Delivery, n: nat, t: Task)
    requires n <= |d.env.subscriptions|
    ensures t in DueTasks(d, n)
            <==> exists i :: 0 <= i < n && TaskDue(d, i) && t == Task(d.env.newTask(d.env.subscriptions[i].id).id, d.key, d.env.subscriptions[i].id)
  {
    if n > 0 { DueTasksAre(d, n - 1, t); }
  }

  lemma {:induction false} DueRecordsAre(d: Delivery, n: nat)
    requires n <= |d.env.subscriptions|
    ensures DueRecords(d, n) != [] <==> exists i :: 0 <= i < n && RecordDue(d, i)
  {
    if n > 0 { DueRecordsAre(d, n - 1); }
  }

  lemma {:induction false} MatchingAreDue(d: Delivery)
    ensures var n := |d.env.subscriptions|;
            Created(d, Matching(d)) == DueTasks(d, n) && Records(d, Matching(d)) == DueRecords(d, n) && (Aborted(d, Matching(d)) <==> !Undisturbed(d, n))
  {
    var n := |d.env.subscriptions|;
    assert d.env.subscriptions[..n] == d.env.subscriptions;
    ServedAreDue(d, n);
    AbortedIff(d, n);
  }

  /**
   * A delivery that is new, stored and can be matched makes a task for exactly those subscriptions of the list that
   * are enabled, of its source, for its type, with every filter met, whose creation returned a task, and before which
   * no such subscription threw; each gets one, in the order of the list. Any other delivery makes none.
   */
  lemma {:induction false} TaskIff(s: State, d: Delivery, t: Task)
    ensures var accepted := d.env.insertError.None? && (forall row :: row in s.log ==> row.key != d.key) && !d.env.queryFails;
            var n := if accepted then |d.env.subscriptions| else 0;
            && Process(s, d).tasks == s.tasks + DueTasks(d, n)
            && (t in DueTasks(d, n) <==>
                  exists i :: (0 <= i < n && TaskDue(d, i)
                               && t == Task(d.env.newTask(d.env.subscriptions[i].id).id, d.key, d.env.subscriptions[i].id)))
  {
    ProcessTasks(s, d);
    MatchingAreDue(d);
    DueTasksAre(d, |d.env.subscriptions|, t);
  }

  /** The final status: created if a task was due, matched if only records were, ignored if neither. */
  lemma StatusIff(d: Delivery)
    ensures var subs := d.env.subscriptions;
            && (FinalStatus(d) == TaskCreated <==> exists i :: 0 <= i < |subs| && TaskDue(d, i))
            && (FinalStatus(d) == Matched <==>
                  (exists i :: 0 <= i < |subs| && RecordDue(d, i)) && forall i :: 0 <= i < |subs| ==> !TaskDue(d, i))
            && (FinalStatus(d) == Ignored <==> forall i :: 0 <= i < |subs| ==> !RecordDue(d, i))
  {
    MatchingAreDue(d);
    FewerTasksThanRecords(d, Matching(d));
    var n, due := |d.env.subscriptions|, DueTasks(d, |d.env.subscriptions|);
    DueRecordsAre(d, n);
    if due != [] {
      DueTasksAre(d, n, due[0]);
    }
    forall i | 0 <= i < n && TaskDue(d, i) ensures due != [] {
      DueTasksAre(d, n, Task(d.env.newTask(d.env.subscriptions[i].id).id, d.key, d.env.subscriptions[i].id));
    }
  }

  // ---------------------------------------------------------------- the rest of what a delivery leaves

  /** The subscriptions with a task due whose count is not written. */
  ghost function DueMissed(d: Delivery, n: nat): seq<Id>
    requires n <= |d.env.subscriptions|
  {
    if n == 0 then []
    else
      var sub := d.env.subscriptions[n - 1];
      DueMissed(d, n - 1) + if TaskDue(d, n - 1) && !d.env.count(sub.id).Written? then [sub.id] else []
  }

  function Misses(d: Delivery, kept: seq<Subscription>, sub: Subscription): seq<Id> {
    if !Aborted(d, kept) && Creates(d, sub) && !d.env.count(sub.id).Written? then [sub.id] else []
  }

  lemma Associate<T>(a: seq<T>, b: seq<T>, c: seq<T>)
    ensures a + (b + c) == (a + b) + c
  {
  }

  lemma {:induction false} ServeNextMissed(s: State, d: Delivery, kept: seq<Subscription>, sub: Subscription)
    ensures Serve(s, d, kept + [sub]).missed == Serve(s, d, kept).missed + Misses(d, kept, sub)
  {
    assert (kept + [sub])[..|kept|] == kept;
  }

  lemma MissedNext(d: Delivery, n: nat, kept: seq<Subscription>)
    requires 0 < n <= |d.env.subscriptions| && kept == Filter(d.env.subscriptions[..n - 1], Selects(d))
    ensures var sub := d.env.subscriptions[n - 1];
            DueMissed(d, n) == DueMissed(d, n - 1) + if Selects(d)(sub) then Misses(d, kept, sub) else []
  {
    AbortedIff(d, n - 1);
    WantsIff(d, d.env.subscriptions[n - 1]);
  }

  lemma {:induction false} ServeMissed(s: State, d: Delivery, n: nat)
    requires n <= |d.env.subscriptions|
    ensures Serve(s, d, Filter(d.env.subscriptions[..n], Selects(d))).missed == s.missed + DueMissed(d, n)
  {
    if n > 0 {
      var sub, kept := d.env.subscriptions[n - 1], Filter(d.env.subscriptions[..n - 1], Selects(d));
      ServeMissed(s, d, n - 1);
      ListSnoc(d, n);
      MissedNext(d, n, kept);
      if Selects(d)(sub) {
        ServeNextMissed(s, d, kept, sub);
        Associate(s.missed, DueMissed(d, n - 1), Misses(d, kept, sub));
      } else {
        assert DueMissed(d, n) == DueMissed(d, n - 1);
      }
    }
  }

  /**
   * The counters of one delivery: an increment is missed exactly for the tasks made whose count was not written, and
   * the source's count rises by one exactly if the delivery ran to its end and that write worked.
   */
  lemma {:induction false} CountersOf(s: State, d: Delivery)
    ensures var n := |d.env.subscriptions|;
            var served := d.env.insertError.None? && (forall row :: row in s.log ==> row.key != d.key) && !d.env.queryFails;
            var counted := served && Undisturbed(d, n) && d.env.sourceCount.Written?;
            && Process(s, d).missed == s.missed + DueMissed(d, if served then n else 0)
            && Process(s, d).eventCount
               == if counted then s.eventCount[d.key.source := At(s.eventCount, d.key.source) + 1] else s.eventCount
  {
    MissedAfter(s, d);
    CountAfter(s, d);
    AcceptsIff(s, d);
    AllMissed(Stored(s, d), d);
    MatchingAreDue(d);
  }

  lemma AcceptsIff(s: State, d: Delivery)
    ensures Accepts(s.log, d) <==> d.env.insertError.None? && forall row :: row in s.log ==> row.key != d.key
  {
  }

  lemma {:induction false} MissedAfter(s: State, d: Delivery)
    ensures Process(s, d).missed
            == if Accepts(s.log, d) && !d.env.queryFails then Serve(Stored(s, d), d, Matching(d)).missed else s.missed
  {
  }

  lemma {:induction false} CountAfter(s: State, d: Delivery)
    ensures Process(s, d).eventCount
            == if Accepts(s.log, d) && !d.env.queryFails && !Aborted(d, Matching(d)) && d.env.sourceCount.Written?
               then s.eventCount[d.key.source := At(s.eventCount, d.key.source) + 1] else s.eventCount
  {
    ServeFrame(Stored(s, d), d, Matching(d));
  }

  lemma {:induction false} AllMissed(s: State, d: Delivery)
    ensures Serve(s, d, Matching(d)).missed == s.missed + DueMissed(d, |d.env.subscriptions|)
  {
    assert d.env.subscriptions[..|d.env.subscriptions|] == d.env.subscriptions;
    ServeMissed(s, d, |d.env.subscriptions|);
  }

  /** The answer to a delivery, in full. */
  lemma {:induction false} ReplyIff(s: State, d: Delivery)
    ensures var n := |d.env.subscriptions|;
            var known := exists row :: row in s.log && row.key == d.key;
            && (Reply(s, d) == Duplicate <==> d.env.insertError == Some(ConstraintText) || (d.env.insertError.None? && known))
            && (Reply(s, d) == Failed <==>
                  || d.env.insertError == Some(OtherText)
                  || (d.env.insertError.None? && !known
                      && (d.env.queryFails || !Undisturbed(d, n) || d.env.sourceCount.WriteThrows?)))
            && (Reply(s, d).Done? ==>
                  Reply(s, d) == Done(d.env.logId, DueRecords(d, n) != [], |DueRecords(d, n)|, TaskIds(DueTasks(d, n))))
  {
    MatchingAreDue(d);
    match d.env.insertError
    case None =>
    case Some(ConstraintText) =>
    case Some(OtherText) =>
  }

  // ---------------------------------------------------------------- match counts

  function TasksFor(tasks: seq<Task>, sub: Id): nat {
    Count(tasks, (t: Task) => t.subscription == sub)
  }

  function Missed(missed: seq<Id>, sub: Id): nat {
    Count(missed, (m: Id) => m == sub)
  }

  /** A subscription's count and the increments that failed add up to its tasks. */
  predicate Balanced(s: State, sub: Id) {
    At(s.matchedCount, sub) + Missed(s.missed, sub) == TasksFor(s.tasks, sub)
  }

  /** Another subscription's task and its count do not concern this one. */
  lemma OtherBalanced(s: State, d: Delivery, served: Subscription, sub: Id)
    requires Balanced(s, sub) && Creates(d, served) && sub != served.id
    ensures Balanced(ServeOne(s, d, served), sub)
  {
    FilterSnoc(s.tasks, TaskFor(d, served)[0], (t: Task) => t.subscription == sub);
    FilterSnoc(s.missed, served.id, (m: Id) => m == sub);
  }

  /** The task counts for the subscription served, and so does its increment or the loss of it. */
  lemma ServedBalanced(s: State, d: Delivery, served: Subscription)
    requires Balanced(s, served.id) && Creates(d, served)
    ensures Balanced(ServeOne(s, d, served), served.id)
  {
    var sub := served.id;
    FilterSnoc(s.tasks, TaskFor(d, served)[0], (t: Task) => t.subscription == sub);
    if !d.env.count(sub).Written? { FilterSnoc(s.missed, sub, (m: Id) => m == sub); }
  }

  lemma ServeOneBalanced(s: State, d: Delivery, served: Subscription, sub: Id)
    requires Balanced(s, sub) && Creates(d, served)
    ensures Balanced(ServeOne(s, d, served), sub)
  {
    if sub == served.id { ServedBalanced(s, d, served); } else { OtherBalanced(s, d, served, sub); }
  }

  lemma {:induction false} ServeBalanced(s: State, d: Delivery, subs: seq<Subscription>, sub: Id)
    requires Balanced(s, sub)
    ensures Balanced(Serve(s, d, subs), sub)
  {
    if subs != [] {
      var n := |subs| - 1;
      ServeBalanced(s, d, subs[..n], sub);
      if Creates(d, subs[n]) && !Aborted(d, subs[..n]) {
        ServeOneBalanced(Serve(s, d, subs[..n]), d, subs[n], sub);
      }
    }
  }

  /** In every run the match counts account for all tasks. */
  lemma {:induction false} CountsAccountForTasks(s: State, actions: seq<Action>, sub: Id)
    requires Balanced(s, sub)
    ensures Balanced(Run(s, actions), sub)
  {
    if actions != [] {
      var n := |actions| - 1;
      CountsAccountForTasks(s, actions[..n], sub);
      var t := Run(s, actions[..n]);
      if actions[n].Deliver? && Accepts(t.log, actions[n].d) && !actions[n].d.env.queryFails {
        ServeBalanced(Stored(t, actions[n].d), actions[n].d, Matching(actions[n].d), sub);
      }
    }
  }

  // ---------------------------------------------------------------- the log

  /** Nothing kept the pipeline from closing the delivery's log row. */
  predicate Closes(d: Delivery) {
    !d.env.queryFails && !Aborted(d, Matching(d)) && !d.env.closeFails
  }

  /** What the log says about a delivery in the end. */
  function FinalRow(d: Delivery): LogRow {
    if Closes(d) then LogRow(d.env.logId, d.key, FinalStatus(d), Records(d, Matching(d)))
    else LogRow(d.env.logId, d.key, Received, [])
  }

  lemma RowWritten(s: State, d: Delivery)
    requires Accepts(s.log, d)
    ensures FinalRow(d) in Process(s, d).log
  {
    var stored := Stored(s, d);
    ServeFrame(stored, d, Matching(d));
    assert Process(s, d).log[|s.log|] == FinalRow(d);
  }

  lemma RowKept(s: State, d: Delivery, row: LogRow)
    requires row in s.log && row.id != d.env.logId
    ensures row in Process(s, d).log
  {
    var i :| 0 <= i < |s.log| && s.log[i] == row;
    ServeFrame(Stored(s, d), d, Matching(d));
    assert Process(s, d).log[i] == row;
  }

  ghost predicate FreshLogIds(actions: seq<Action>) {
    forall i, j :: 0 <= i < j < |actions| && actions[i].Deliver? && actions[j].Deliver? ==> actions[i].d.env.logId != actions[j].d.env.logId
  }

  lemma RowSurvives(s: State, a: Action, row: LogRow)
    requires row in s.log && !Forgets(a, row.key) && (a.Deliver? ==> a.d.env.logId != row.id)
    ensures row in Step(s, a).log
  {
    match a
    case Deliver(d) => RowKept(s, d, row);
    case Forget(keys) => FilterMembers(s.log, (row: LogRow) => row.key !in keys, row);
  }

  lemma {:induction false} RowSurvivesRun(s: State, actions: seq<Action>, i: nat, row: LogRow)
    requires i < |actions| && row in Run(s, actions[..i + 1]).log
    requires forall k :: i < k < |actions| ==> !Forgets(actions[k], row.key) && (actions[k].Deliver? ==> actions[k].d.env.logId != row.id)
    ensures row in Run(s, actions).log
  {
    var n := |actions| - 1;
    if i < n {
      assert actions[..n][..i + 1] == actions[..i + 1];
      RowSurvivesRun(s, actions[..n], i, row);
      RowSurvives(Run(s, actions[..n]), actions[n], row);
    } else {
      assert actions[..i + 1] == actions;
    }
  }

  lemma {:induction false} FinalRowStays(s: State, actions: seq<Action>, i: nat)
    requires i < |actions| && IsFirst(s.log, actions, i) && FreshLogIds(actions)
    requires forall k :: i < k < |actions| ==> !Forgets(actions[k], actions[i].d.key)
    ensures FinalRow(actions[i].d) in Run(s, actions).log
  {
    AcceptedIffFirst(s, actions, i);
    assert actions[..i + 1][..i] == actions[..i];
    RowWritten(Run(s, actions[..i]), actions[i].d);
    RowSurvivesRun(s, actions, i, FinalRow(actions[i].d));
  }

  ghost predicate UniqueKeys(log: seq<LogRow>) {
    forall i, j :: 0 <= i < j < |log| ==> log[i].key != log[j].key
  }

  lemma {:induction false} ForgettingKeepsUnique(log: seq<LogRow>, keys: set<Key>)
    requires UniqueKeys(log)
    ensures UniqueKeys(Forgotten(log, keys))
  {
    if log != [] {
      var n := |log| - 1;
      ForgettingKeepsUnique(log[..n], keys);
      forall row | row in Forgotten(log[..n], keys) ensures row.key != log[n].key {
        FilterMembers(log[..n], (row: LogRow) => row.key !in keys, row);
      }
    }
  }

  lemma ProcessKeepsUnique(s: State, d: Delivery)
    requires UniqueKeys(s.log)
    ensures UniqueKeys(Process(s, d).log)
  {
    if Accepts(s.log, d) {
      var stored := Stored(s, d);
      forall i | 0 <= i < |s.log| ensures s.log[i].key != d.key {
        assert s.log[i] in s.log;
      }
      assert UniqueKeys(stored.log);
      KeysOfProcess(s, d);
    }
  }

  lemma {:induction false} RunKeepsUnique(s: State, actions: seq<Action>)
    requires UniqueKeys(s.log)
    ensures UniqueKeys(Run(s, actions).log)
  {
    if actions != [] {
      var n := |actions| - 1;
      RunKeepsUnique(s, actions[..n]);
      match actions[n]
      case Deliver(d) => ProcessKeepsUnique(Run(s, actions[..n]), d);
      case Forget(keys) => ForgettingKeepsUnique(Run(s, actions[..n]).log, keys);
    }
  }

  /**
   * Until it is forgotten, the one log row of a first occurrence shows the status and the matches it really had if
   * and only if the subscriptions could be read, nothing threw, and the closing update worked; otherwise it stays
   * as it was received, whatever tasks were made.
   */
  lemma {:induction false} LogTellsTheTruthIff(s: State, actions: seq<Action>, i: nat, row: LogRow)
    requires UniqueKeys(s.log) && FreshLogIds(actions)
    requires i < |actions| && IsFirst(s.log, actions, i)
    requires forall k :: i < k < |actions| ==> !Forgets(actions[k], actions[i].d.key)
    ensures var d := actions[i].d;
            && (row in Run(s, actions).log && row.key == d.key <==> row == FinalRow(d))
            && (FinalRow(d) == LogRow(d.env.logId, d.key, FinalStatus(d), Records(d, Matching(d))) <==> Closes(d))
            && (!Closes(d) ==> FinalRow(d) == LogRow(d.env.logId, d.key, Received, []))
  {
    var log, final := Run(s, actions).log, FinalRow(actions[i].d);
    FinalRowStays(s, actions, i);
    RunKeepsUnique(s, actions);
    if row in log && row.key == final.key {
      var j :| 0 <= j < |log| && log[j] == row;
      var k :| 0 <= k < |log| && log[k] == final;
      assert j == k;
    }
  }

  // ---------------------------------------------------------------- sample runs

  const EMPTY := State([], [], map[], map[], [])

  /** A delivery that one subscription matches, with all of the surroundings working. */
  const SAMPLE := Delivery(Key("source", "delivery"), "push", Env(
    "log", None, false, [Subscription("sub", "source", true, [], [])],
    (f: string) => true, (sub: Id) => Made("task"), (sub: Id) => Written, false, Written))

  lemma SampleMakesTask(env: Env)
    requires env.subscriptions == SAMPLE.env.subscriptions && env.newTask("sub") == Made("task")
    ensures var d := SAMPLE.(env := env); Created(d, Matching(d)) == [Task("task", d.key, "sub")]
  {
    var d, sub := SAMPLE.(env := env), SAMPLE.env.subscriptions[0];
    assert env.subscriptions == [] + [sub] && Filter<Subscription>([], Selects(d)) == [];
    FilterSnoc([], sub, Selects(d));
    assert Matching(d) == [sub] && [sub][..0] == [];
    assert PassesFilters(d, sub) && TaskFor(d, sub) == [Task("task", d.key, "sub")];
  }

  /** If the closing update fails, a task exists and the log row still says that the event was only received. */
  lemma LogCanMissTasks()
    ensures var d := SAMPLE.(env := SAMPLE.env.(closeFails := true));
            Process(EMPTY, d).tasks == [Task("task", d.key, "sub")] && Process(EMPTY, d).log == [LogRow("log", d.key, Received, [])]
  {
    var d := SAMPLE.(env := SAMPLE.env.(closeFails := true));
    SampleMakesTask(d.env);
    ProcessTasks(EMPTY, d);
    ServeFrame(Stored(EMPTY, d), d, Matching(d));
    RowWritten(EMPTY, d);
  }

  lemma {:induction false} ShortRuns(s: State, a: Action, b: Action)
    ensures Run(s, [a]) == Step(s, a) && Run(s, [a, b]) == Step(Step(s, a), b)
  {
    assert [a][..0] == [] && [a, b][..1] == [a];
  }

  lemma SecondIsDropped(first: Delivery, second: Delivery)
    requires first.key == second.key && first.env.insertError.None? && first.env.queryFails
    ensures Process(Process(EMPTY, first), second).tasks == []
  {
    ProcessLog(EMPTY, first, second.key);
    ProcessTasks(EMPTY, first);
    ProcessTasks(Process(EMPTY, first), second);
  }

  /** A delivery whose first attempt could not read the subscriptions is lost: the redelivery makes no task, though alone it would. */
  lemma UnreadableThenRedelivered()
    ensures var unreadable := SAMPLE.(env := SAMPLE.env.(queryFails := true));
            && Run(EMPTY, [Deliver(unreadable), Deliver(SAMPLE)]).tasks == []
            && Run(EMPTY, [Deliver(SAMPLE)]).tasks == [Task("task", SAMPLE.key, "sub")]
  {
    var unreadable := SAMPLE.(env := SAMPLE.env.(queryFails := true));
    ShortRuns(EMPTY, Deliver(unreadable), Deliver(SAMPLE));
    ShortRuns(EMPTY, Deliver(SAMPLE), Deliver(SAMPLE));
    SecondIsDropped(unreadable, SAMPLE);
    SampleMakesTask(SAMPLE.env);
    ProcessTasks(EMPTY, SAMPLE);
  }

  /** A delivery of the given type to one subscription that lists "push" only, with everything working. */
  function OfType(eventType: string): Delivery {
    SAMPLE.(eventType := eventType, env := SAMPLE.env.(subscriptions := [Subscription("sub", "source", true, ["push"], [])]))
  }

  /** The listed type makes a task, another type is ignored. */
  lemma ListedTypeOnly()
    ensures Process(EMPTY, OfType("push")).tasks == [Task("task", SAMPLE.key, "sub")]
    ensures Process(EMPTY, OfType("push")).log == [LogRow("log", SAMPLE.key, TaskCreated, [Match("sub", Some("task"))])]
    ensures Process(EMPTY, OfType("issues")).tasks == []
    ensures Process(EMPTY, OfType("issues")).log == [LogRow("log", SAMPLE.key, Ignored, [])]
  {
    var push, issues := OfType("push"), OfType("issues");
    var sub := push.env.subscriptions[0];
    assert sub.eventTypes[0] == "push" && Wants(push, sub);
    assert sub.eventTypes[0] != "issues" && !Wants(issues, sub);
    OneIsDue(push);
    OneIsDue(issues);
    OneSubscription(push);
    OneSubscription(issues);
  }

  predicate AllWorks(d: Delivery) {
    && d.env.insertError.None? && !d.env.queryFails && !d.env.closeFails && |d.env.subscriptions| == 1
    && var sub := d.env.subscriptions[0];
       d.env.newTask(sub.id).Made? && d.env.count(sub.id).Written?
  }

  lemma {:induction false} OneIsDue(d: Delivery)
    requires AllWorks(d)
    ensures var sub := d.env.subscriptions[0];
            && Undisturbed(d, 1) && (TaskDue(d, 0) <==> Wants(d, sub)) && (RecordDue(d, 0) <==> Wants(d, sub))
            && DueTasks(d, 1) == (if Wants(d, sub) then [Task(d.env.newTask(sub.id).id, d.key, sub.id)] else [])
            && DueRecords(d, 1) == (if Wants(d, sub) then [Match(sub.id, Some(d.env.newTask(sub.id).id))] else [])
  {
    assert !Stops(d, d.env.subscriptions[0]);
    assert DueTasks(d, 0) == [] && DueRecords(d, 0) == [];
  }

  /** The row of a delivery that closes. */
  lemma {:induction false} ClosedRow(d: Delivery)
    requires AllWorks(d)
    ensures FinalRow(d) == LogRow(d.env.logId, d.key, FinalStatus(d), DueRecords(d, 1))
    ensures FinalStatus(d) == if Wants(d, d.env.subscriptions[0]) then TaskCreated else Ignored
  {
    OneIsDue(d);
    MatchingAreDue(d);
    StatusIff(d);
  }

  lemma OnlyRow(d: Delivery)
    requires d.env.insertError.None?
    ensures Process(EMPTY, d).log == [FinalRow(d)]
  {
    assert Accepts(EMPTY.log, d);
    RowWritten(EMPTY, d);
    KeysOfProcess(EMPTY, d);
    var log := Process(EMPTY, d).log;
    assert |log| == 1 && FinalRow(d) in log;
  }

  lemma {:induction false} OneSubscription(d: Delivery)
    requires AllWorks(d)
    ensures var sub := d.env.subscriptions[0];
            && Process(EMPTY, d).tasks == DueTasks(d, 1)
            && Process(EMPTY, d).log == [LogRow(d.env.logId, d.key, if Wants(d, sub) then TaskCreated else Ignored, DueRecords(d, 1))]
  {
    TaskIff(EMPTY, d, Task("", d.key, ""));
    ClosedRow(d);
    OnlyRow(d);
  }

  // ---------------------------------------------------------------- answers

  /**
   * "Duplicate" means the delivery is in the log, except when the insert itself was refused with a text that
   * mentions a constraint: then, and only then, an event is reported as seen although it never was.
   */
  lemma DuplicateIsLoggedIff(s: State, d: Delivery)
    ensures (Reply(s, d).Duplicate? ==> Logged(Process(s, d).log, d.key))
            <==> !(d.env.insertError == Some(ConstraintText) && !Logged(s.log, d.key))
  {
    match d.env.insertError
    case None =>
    case Some(ConstraintText) =>
    case Some(OtherText) =>
  }

  /** The very first delivery of a key can be called a duplicate and leave no trace. */
  lemma UnloggedDuplicate()
    ensures var d := SAMPLE.(env := SAMPLE.env.(insertError := Some(ConstraintText)));
            Reply(EMPTY, d) == Duplicate && Process(EMPTY, d) == EMPTY && !Logged(EMPTY.log, d.key)
  {
  }

  /** A processed delivery's reply lists the tasks that were really added. */
  lemma ReplyIsTrue(s: State, d: Delivery)
    requires Reply(s, d).Done?
    ensures s.tasks <= Process(s, d).tasks
    ensures TaskIds(Process(s, d).tasks[|s.tasks|..]) == Reply(s, d).tasksCreated
    ensures |Reply(s, d).tasksCreated| <= Reply(s, d).matchCount
  {
    ProcessTasks(s, d);
    FewerTasksThanRecords(d, Matching(d));
    assert Process(s, d).tasks[|s.tasks|..] == Created(d, Matching(d));
  }

  lemma {:induction false} FewerTasksThanRecords(d: Delivery, subs: seq<Subscription>)
    ensures |Created(d, subs)| <= |Records(d, subs)|
  {
    if subs != [] {
      FewerTasksThanRecords(d, subs[..|subs| - 1]);
    }
  }

  // ---------------------------------------------------------------- the service

  class EventProcessingService {
    var log: seq<LogRow>
    var tasks: seq<Task>
    var matchedCount: map<Id, nat>
    var eventCount: map<Id, nat>
    ghost var missed: seq<Id>

    ghost function Abs(): State
      reads this
    {
      State(log, tasks, matchedCount, eventCount, missed)
    }

    constructor ()
      ensures Abs() == State([], [], map[], map[], [])
    {
      log, tasks, matchedCount, eventCount, missed := [], [], map[], map[], [];
    }

    method HasKey(key: Key) returns (b: bool)
      ensures b <==> Logged(log, key)
    {
      var i := 0;
      while i < |log|
        invariant i <= |log|
        invariant forall k :: 0 <= k < i ==> log[k].key != key
      {
        if log[i].key == key {
          assert log[i] in log;
          return true;
        }
        i := i + 1;
      }
      b := false;
    }

    method ProcessEventPipeline(d: Delivery) returns (answer: Answer)
      modifies this
      ensures Abs() == Process(old(Abs()), d)
      ensures answer == Reply(old(Abs()), d)
      ensures var accepted := d.env.insertError.None? && (forall row :: row in old(log) ==> row.key != d.key) && !d.env.queryFails;
              tasks == old(tasks) + DueTasks(d, if accepted then |d.env.subscriptions| else 0)
    {
      TaskIff(Abs(), d, Task("", d.key, ""));
      var taken := HasKey(d.key);
      if d.env.insertError.Some? || taken {
        return if d.env.insertError == Some(OtherText) then Failed else Duplicate;
      }
      log := log + [LogRow(d.env.logId, d.key, Received, [])];
      if d.env.queryFails {
        return Failed;
      }
      var threw, tasksCreated, records := ServeMatching(d);
      if threw {
        return Failed;
      }
      FewerTasksThanRecords(d, Matching(d));
      FinishDelivery(d, |tasksCreated|, records);
      answer := if d.env.sourceCount.WriteThrows? then Failed
                else Done(d.env.logId, |tasksCreated| > 0 || |records| > 0, |records|, tasksCreated);
    }

    /** The log row is closed and the source's count raised; a failure of the first does not stop the second. */
    method FinishDelivery(d: Delivery, tasksCreated: nat, records: seq<Match>)
      requires tasksCreated == |Created(d, Matching(d))| && records == Records(d, Matching(d))
      modifies `log, `eventCount
      ensures Abs() == Finish(old(Abs()), d)
    {
      if !d.env.closeFails {
        log := CloseRow(log, d.env.logId, ResolveEventStatus(tasksCreated, |records|), records);
      }
      if d.env.sourceCount.Written? {
        eventCount := eventCount[d.key.source := At(eventCount, d.key.source) + 1];
      }
    }

    /** The retention job's deletions. */
    method DeleteLogRows(keys: set<Key>)
      modifies `log
      ensures Abs() == Step(old(Abs()), Forget(keys))
    {
      log := Forgotten(log, keys);
    }

    method ServeMatching(d: Delivery) returns (threw: bool, tasksCreated: seq<Id>, records: seq<Match>)
      modifies `tasks, `matchedCount, `missed
      ensures Abs() == Serve(old(Abs()), d, Matching(d))
      ensures threw == Aborted(d, Matching(d))
      ensures |tasksCreated| == |Created(d, Matching(d))|
      ensures !threw ==> tasksCreated == TaskIds(Created(d, Matching(d))) && records == Records(d, Matching(d))
    {
      var subs := Matching(d);
      threw, tasksCreated, records := false, [], [];
      var i := 0;
      while i < |subs| && !threw
        invariant i <= |subs|
        invariant Abs() == Serve(old(Abs()), d, subs[..i]) && threw == Aborted(d, subs[..i])
        invariant tasksCreated == TaskIds(Created(d, subs[..i])) && records == Records(d, subs[..i])
      {
        var sub := subs[i];
        ServeNext(old(Abs()), d, subs, i);
        i := i + 1;
        if !PassesFilters(d, sub) {
          continue;
        }
        match d.env.newTask(sub.id) {
          case CreationThrows =>
            threw := true;
          case NotMade =>
            records := records + [Match(sub.id, None)];
          case Made(id) =>
            tasksCreated := tasksCreated + [id];
            records := records + [Match(sub.id, Some(id))];
            threw := ServeMade(d, sub, id);
        }
      }
      AbortedStays(old(Abs()), d, subs, i);
    }

    /** The task's row and the subscription's count. */
    method ServeMade(d: Delivery, sub: Subscription, id: Id) returns (threw: bool)
      requires Creates(d, sub) && d.env.newTask(sub.id) == Made(id)
      modifies `tasks, `matchedCount, `missed
      ensures Abs() == ServeOne(old(Abs()), d, sub) && threw == d.env.count(sub.id).WriteThrows?
    {
      tasks := tasks + [Task(id, d.key, sub.id)];
      threw := d.env.count(sub.id).WriteThrows?;
      if d.env.count(sub.id).Written? {
        matchedCount := matchedCount[sub.id := At(matchedCount, sub.id) + 1];
      } else {
        missed := missed + [sub.id];
      }
    }
  }

  lemma {:induction false} ServeNext(s: State, d: Delivery, subs: seq<Subscription>, i: nat)
    requires i < |subs| && !Aborted(d, subs[..i])
    ensures Serve(s, d, subs[..i + 1]) == ServeOne(Serve(s, d, subs[..i]), d, subs[i])
    ensures Aborted(d, subs[..i + 1]) == Aborts(d, subs[i])
    ensures Records(d, subs[..i + 1]) == Records(d, subs[..i]) + RecordOf(d, subs[i])
    ensures TaskIds(Created(d, subs[..i + 1])) == TaskIds(Created(d, subs[..i])) + TaskIds(TaskFor(d, subs[i]))
  {
    assert subs[..i + 1][..i] == subs[..i];
  }

  /** Once serving is aborted the remaining subscriptions change nothing. */
  lemma {:induction false} AbortedStays(s: State, d: Delivery, subs: seq<Subscription>, i: nat)
    requires i <= |subs| && (i < |subs| ==> Aborted(d, subs[..i]))
    ensures Aborted(d, subs) == Aborted(d, subs[..i]) && Serve(s, d, subs) == Serve(s, d, subs[..i])
    ensures Created(d, subs) == Created(d, subs[..i]) && Records(d, subs) == Records(d, subs[..i])
    decreases |subs| - i
  {
    if i == |subs| {
      assert subs[..i] == subs;
    } else {
      assert subs[..i + 1][..i] == subs[..i];
      AbortedStays(s, d, subs, i + 1);
    }
  }
}
