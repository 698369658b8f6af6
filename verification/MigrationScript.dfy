/**
 * The migration script itself: conversion, batched inserts and deferred updates as the loops the script runs,
 * inside one transaction that a dry run or any refused row takes back.
 */
module MigrationScript {
  import opened Common
  import opened CopiedCells
  import opened Migration

  const NO_FOREIGN_KEYS: seq<TableDef> := [
    TableDef("settings", ["key"], [], [], []),
    TableDef("api_keys", ["id"], ["is_valid"], [], []),
    TableDef("github_tokens", ["id"], ["is_valid"], [], []),
    TableDef("github_installations", ["id"], [], [], []),
    TableDef("sandbox_configs", ["id"], ["is_default", "network_policy_enabled"], ["allowed_egress_hosts"], []),
    TableDef("terraform_registries", ["id"], [], [], []),
    TableDef("marketplaces", ["id"], ["is_default", "is_enabled"], ["cached_plugins"], []),
    TableDef("cli_sessions", ["id"], ["is_subagent"], [], [])
  ]

  const PARENTS: seq<TableDef> := [
    TableDef("projects", ["id"], [], ["config"], []),
    TableDef("agents", ["id"], [], ["config"], [])
  ]

  const CIRCULAR: seq<TableDef> := [
    TableDef("tasks", ["id"], [], ["labels", "diff_summary", "plan_options"], ["session_id", "worktree_id"]),
    TableDef("sessions", ["id"], [], [], ["task_id"]),
    TableDef("worktrees", ["id"], [], [], ["task_id"])
  ]

  const CHILDREN: seq<TableDef> := [
    TableDef("templates", ["id"], [], ["cached_skills", "cached_commands", "cached_agents"], []),
    TableDef("repository_configs", ["id"], [], ["config"], []),
    TableDef("sandbox_instances", ["id"], [], ["volume_mounts", "env"], []),
    TableDef("agent_runs", ["id"], [], [], []),
    TableDef("session_events", ["id"], [], ["data"], []),
    TableDef("session_summaries", ["id"], [], [], [])
  ]

  const MORE_CHILDREN: seq<TableDef> := [
    TableDef("audit_logs", ["id"], [], ["input", "output"], []),
    TableDef("template_projects", ["template_id", "project_id"], [], [], []),
    TableDef("sandbox_tmux_sessions", ["id"], ["attached"], [], []),
    TableDef("plan_sessions", ["id"], [], ["turns"], []),
    TableDef("terraform_modules", ["id"], [], ["inputs", "outputs", "dependencies"], []),
    TableDef("workflows", ["id"], ["ai_generated"], ["nodes", "edges", "viewport", "tags"], [])
  ]

  /** All tables, in the order they are copied. */
  const TABLE_DEFS: seq<TableDef> := NO_FOREIGN_KEYS + PARENTS + CIRCULAR + CHILDREN + MORE_CHILDREN

  /** The tables the cleaning statement names. */
  const TRUNCATED: set<string> := {
    "audit_logs", "agent_runs", "session_events", "session_summaries", "sandbox_tmux_sessions", "template_projects",
    "plan_sessions", "sessions", "worktrees", "tasks", "agents", "templates", "repository_configs",
    "sandbox_instances", "terraform_modules", "workflows", "terraform_registries", "marketplaces", "cli_sessions",
    "sandbox_configs", "github_installations", "github_tokens", "api_keys", "settings", "projects"
  }

  /** Either nothing is converted, or the key is `id` and every converted column has a longer name. */
  predicate Simple(d: TableDef) {
    && d.name in TRUNCATED
    && var touched := d.booleanCols + d.jsonCols + d.circularFkCols;
       touched == [] || (d.primaryKey == ["id"] && forall i :: 0 <= i < |touched| ==> |touched[i]| > 2)
  }

  lemma SimpleIsPlain(d: TableDef)
    requires Simple(d)
    ensures PlainKey(d)
  {
    var touched := d.booleanCols + d.jsonCols + d.circularFkCols;
    forall k | k in d.primaryKey ensures k !in touched {
    }
    assert forall c :: c in d.booleanCols || c in d.jsonCols || c in d.circularFkCols ==> c in touched;
  }

  lemma NoForeignKeysAreSimple()
    ensures forall i :: 0 <= i < |NO_FOREIGN_KEYS| ==> Simple(NO_FOREIGN_KEYS[i])
  {
    assert Simple(NO_FOREIGN_KEYS[0]);
    assert Simple(NO_FOREIGN_KEYS[1]);
    assert Simple(NO_FOREIGN_KEYS[2]);
    assert Simple(NO_FOREIGN_KEYS[3]);
    assert Simple(NO_FOREIGN_KEYS[4]);
    assert Simple(NO_FOREIGN_KEYS[5]);
    assert Simple(NO_FOREIGN_KEYS[6]);
    assert Simple(NO_FOREIGN_KEYS[7]);
  }

  lemma ParentsAreSimple()
    ensures forall i :: 0 <= i < |PARENTS| ==> Simple(PARENTS[i])
  {
    assert Simple(PARENTS[0]);
    assert Simple(PARENTS[1]);
  }

  lemma CircularAreSimple()
    ensures forall i :: 0 <= i < |CIRCULAR| ==> Simple(CIRCULAR[i])
  {
    assert Simple(CIRCULAR[0]);
    assert Simple(CIRCULAR[1]);
    assert Simple(CIRCULAR[2]);
  }

  lemma ChildrenAreSimple()
    ensures forall i :: 0 <= i < |CHILDREN| ==> Simple(CHILDREN[i])
  {
    assert Simple(CHILDREN[0]);
    assert Simple(CHILDREN[1]);
    assert Simple(CHILDREN[2]);
    assert Simple(CHILDREN[3]);
    assert Simple(CHILDREN[4]);
    assert Simple(CHILDREN[5]);
  }

  lemma MoreChildrenAreSimple()
    ensures forall i :: 0 <= i < |MORE_CHILDREN| ==> Simple(MORE_CHILDREN[i])
  {
    assert Simple(MORE_CHILDREN[0]);
    assert Simple(MORE_CHILDREN[1]);
    assert Simple(MORE_CHILDREN[2]);
    assert Simple(MORE_CHILDREN[3]);
    assert Simple(MORE_CHILDREN[4]);
    assert Simple(MORE_CHILDREN[5]);
  }

  /** No primary-key column of any table is converted or held back, and cleaning covers every table. */
  lemma TableDefsArePlain(d: TableDef)
    requires d in TABLE_DEFS
    ensures PlainKey(d) && d.name in TRUNCATED
  {
    NoForeignKeysAreSimple();
    ParentsAreSimple();
    CircularAreSimple();
    ChildrenAreSimple();
    MoreChildrenAreSimple();
    SimpleIsPlain(d);
  }

  // ---------------------------------------------------------------- what is read

  datatype SourceTable = SourceTable(columns: seq<Column>, rows: seq<Row>)

  /** The SQLite side by table name, and the column lists of the PostgreSQL side. */
  datatype Input = Input(source: map<string, SourceTable>, target: map<string, seq<Column>>)

  function SourceOf(input: Input, name: string): SourceTable {
    if name in input.source then input.source[name] else SourceTable([], [])
  }

  /** The target's columns, in its order, that the source has too. */
  function CommonColumns(input: Input, name: string): seq<Column> {
    var have := SourceOf(input, name).columns;
    Filter(if name in input.target then input.target[name] else [], c => c in have)
  }

  function TableItems(input: Input, def: TableDef): seq<Item> {
    var columns, rows := CommonColumns(input, def.name), SourceOf(input, def.name).rows;
    if columns == [] then [] else seq(|rows|, i requires 0 <= i < |rows| => Item(def, columns, rows[i]))
  }

  function AllItems(input: Input, defs: seq<TableDef>): seq<Item> {
    if defs == [] then [] else AllItems(input, defs[..|defs| - 1]) + TableItems(input, defs[|defs| - 1])
  }

  /** A catalogue lists no column twice. */
  predicate ProperCatalogue(input: Input) {
    forall name :: name in input.target ==> Distinct(input.target[name])
  }

  lemma {:induction false} FilterKeepsDistinct<T>(s: seq<T>, p: T -> bool)
    requires Distinct(s)
    ensures Distinct(Filter(s, p))
  {
    if s != [] {
      var n := |s| - 1;
      FilterKeepsDistinct(s[..n], p);
      forall i | 0 <= i < |Filter(s[..n], p)| ensures Filter(s[..n], p)[i] != s[n] {
        FilterMembers(s[..n], p, Filter(s[..n], p)[i]);
      }
    }
  }

  lemma {:induction false} ItemsAreWellFormed(input: Input, defs: seq<TableDef>)
    requires ProperCatalogue(input) && forall d :: d in defs ==> PlainKey(d)
    ensures WellFormed(AllItems(input, defs))
    ensures forall i :: 0 <= i < |AllItems(input, defs)| ==> AllItems(input, defs)[i].def in defs
  {
    if defs != [] {
      var n := |defs| - 1;
      ItemsAreWellFormed(input, defs[..n]);
      var name := defs[n].name;
      FilterKeepsDistinct(if name in input.target then input.target[name] else [], c => c in SourceOf(input, name).columns);
      assert defs[n] in defs;
    }
  }

  // ---------------------------------------------------------------- one row, one table

  /** The first `n` columns of the row to insert. */
  function InsertedUpTo(item: Item, parse: Parser, n: nat): Row
    requires n <= |item.columns|
  {
    map col | col in item.columns[..n] :: InsertedValue(item, parse, col)
  }

  function InsertedValue(item: Item, parse: Parser, col: Column): Value {
    if col in item.def.circularFkCols then Null else Convert(item, parse, col)
  }

  lemma InsertedSnoc(item: Item, parse: Parser, n: nat)
    requires n < |item.columns|
    ensures InsertedUpTo(item, parse, n + 1) == InsertedUpTo(item, parse, n)[item.columns[n] := InsertedValue(item, parse, item.columns[n])]
  {
    assert item.columns[..n + 1] == item.columns[..n] + [item.columns[n]];
  }

  lemma InsertedAll(item: Item, parse: Parser)
    ensures InsertedUpTo(item, parse, |item.columns|) == InsertedRow(item, parse)
  {
    assert item.columns[..|item.columns|] == item.columns;
  }

  method ConvertRow(row: Row, def: TableDef, columns: seq<Column>, parse: Parser) returns (converted: Row, deferred: seq<Update>)
    ensures converted == InsertedRow(Item(def, columns, row), parse)
    ensures deferred == Deferred(Item(def, columns, row), parse)
    ensures RowHeldBack(def, columns, parse, row, converted)
    ensures UpdatesFor(def, columns, parse, row, deferred)
  {
    ghost var item := Item(def, columns, row);
    converted, deferred := map[], [];
    var i := 0;
    while i < |columns|
      invariant i <= |columns|
      invariant converted == InsertedUpTo(item, parse, i)
      invariant deferred == DeferredFrom(item, parse, i)
    {
      var col := columns[i];
      var value := Get(row, col);
      if col in def.booleanCols {
        value := ConvertBoolean(value);
      }
      if col in def.jsonCols {
        value := ConvertJson(value, parse);
      }
      assert value == Convert(item, parse, col);
      if col in def.circularFkCols && value != Null {
        deferred := deferred + [Update(KeyOf(def, row), col, value)];
        value := Null;
      }
      InsertedSnoc(item, parse, i);
      converted := converted[col := value];
      i := i + 1;
    }
    RowIsHeldBack(item, parse);
  }

  /** What both results of the loop amount to. */
  lemma RowIsHeldBack(item: Item, parse: Parser)
    ensures InsertedUpTo(item, parse, |item.columns|) == InsertedRow(item, parse)
    ensures RowHeldBack(item.def, item.columns, parse, item.row, InsertedRow(item, parse))
    ensures UpdatesFor(item.def, item.columns, parse, item.row, Deferred(item, parse))
  {
    InsertedAll(item, parse);
    RowIsCopied(item, parse);
    UpdatesAreOwed(item, parse);
  }

  method ConvertRows(rows: seq<Row>, def: TableDef, columns: seq<Column>, parse: Parser)
    returns (convertedRows: seq<Row>, deferred: seq<Update>)
    ensures |convertedRows| == |rows|
    ensures forall k :: 0 <= k < |rows| ==> convertedRows[k] == InsertedRow(Item(def, columns, rows[k]), parse)
    ensures deferred == AllDeferred(seq(|rows|, k requires 0 <= k < |rows| => Item(def, columns, rows[k])), parse)
  {
    ghost var items := seq(|rows|, k requires 0 <= k < |rows| => Item(def, columns, rows[k]));
    convertedRows, deferred := [], [];
    var i := 0;
    while i < |rows|
      invariant i <= |rows| && |convertedRows| == i
      invariant forall k :: 0 <= k < i ==> convertedRows[k] == InsertedRow(items[k], parse)
      invariant deferred == AllDeferred(items[..i], parse)
    {
      var converted, more := ConvertRow(rows[i], def, columns, parse);
      assert items[..i + 1] == items[..i] + [items[i]];
      DeferredSnoc(items[..i], items[i], parse);
      convertedRows := convertedRows + [converted];
      deferred := deferred + more;
      i := i + 1;
    }
    assert items[..|rows|] == items;
  }

  lemma {:induction false} DeferredSnoc(items: seq<Item>, item: Item, parse: Parser)
    ensures AllDeferred(items + [item], parse) == AllDeferred(items, parse) + Deferred(item, parse)
  {
    assert (items + [item])[..|items|] == items;
  }

  function EntriesOf(def: TableDef, rows: seq<Row>): seq<Entry> {
    seq(|rows|, i requires 0 <= i < |rows| => Entry(def, rows[i]))
  }

  /** How many updates go to one column of one table. */
  function Tally(us: seq<Update>, table: string, column: Column): nat {
    Count(us, (u: Update) => u.loc.table == table && u.column == column)
  }

  lemma TallySnoc(us: seq<Update>, u: Update)
    ensures forall t, c :: Tally(us + [u], t, c) == Tally(us, t, c) + if u.loc.table == t && u.column == c then 1 else 0
  {
    forall t, c ensures Tally(us + [u], t, c) == Tally(us, t, c) + if u.loc.table == t && u.column == c then 1 else 0 {
      FilterSnoc(us, u, (v: Update) => v.loc.table == t && v.column == c);
    }
  }

  /** TRUNCATE … CASCADE: the named tables and whatever depends on them. */
  function Cleaned(db: Db, tables: set<string>): Db {
    map l | l in db && l.table !in tables :: db[l]
  }

  function Base(db: Db, clean: bool, dependents: set<string>): Db {
    if clean then Cleaned(db, TRUNCATED + dependents) else db
  }

  // ---------------------------------------------------------------- the target

  class PgDatabase {
    var rows: Db

    constructor (rows: Db)
      ensures this.rows == rows
    {
      this.rows := rows;
    }

    /** One INSERT statement. */
    method Insert(entries: seq<Entry>) returns (ok: bool)
      modifies this
      ensures ok <==> InsertAll(old(rows), entries).Some?
      ensures rows == if ok then InsertAll(old(rows), entries).value else old(rows)
    {
      var r := InsertAll(rows, entries);
      ok := r.Some?;
      if ok {
        rows := r.value;
      }
    }

    /** Whatever the batch size, all rows go in as if by one statement, or some batch is refused. */
    method BatchInsert(def: TableDef, newRows: seq<Row>, batchSize: nat) returns (ok: bool)
      requires batchSize > 0
      modifies this
      ensures ok <==> InsertAll(old(rows), EntriesOf(def, newRows)).Some?
      ensures ok ==> rows == InsertAll(old(rows), EntriesOf(def, newRows)).value
    {
      var i := 0;
      ghost var all := EntriesOf(def, newRows);
      while i < |newRows|
        invariant InsertAll(old(rows), all[..Min(i, |all|)]) == Some(rows)
      {
        var end := Min(i + batchSize, |newRows|);
        var batch := EntriesOf(def, newRows[i..end]);
        EntriesSlice(def, newRows, i, end);
        NextBatch(old(rows), all, i, end);
        ok := Insert(batch);
        if !ok {
          NextBatch(old(rows), all, end, |all|);
          assert all[..|all|] == all;
          return;
        }
        i := i + batchSize;
      }
      assert all[..|all|] == all;
      ok := true;
    }

    method ApplyDeferredUpdates(updates: seq<Update>) returns (counts: map<(string, Column), nat>)
      modifies this
      ensures rows == ApplyAll(old(rows), updates)
      ensures forall t, c :: (if (t, c) in counts then counts[(t, c)] else 0)
                             == Count(updates, (u: Update) => u.loc.table == t && u.column == c)
    {
      counts := map[];
      var i := 0;
      while i < |updates|
        invariant i <= |updates|
        invariant rows == ApplyAll(old(rows), updates[..i])
        invariant forall t, c :: (if (t, c) in counts then counts[(t, c)] else 0) == Tally(updates[..i], t, c)
      {
        var u := updates[i];
        assert updates[..i + 1] == updates[..i] + [u];
        TallySnoc(updates[..i], u);
        ApplySnoc(old(rows), updates[..i], u);
        var key := (u.loc.table, u.column);
        counts := counts[key := (if key in counts then counts[key] else 0) + 1];
        rows := Apply(rows, u);
        i := i + 1;
      }
      assert updates[..|updates|] == updates;
    }

    method MigrateTable(input: Input, def: TableDef, columns: seq<Column>, batchSize: nat, parse: Parser)
      returns (ok: bool, rowCount: nat, deferred: seq<Update>)
      requires batchSize > 0 && columns == CommonColumns(input, def.name) && columns != []
      modifies this
      ensures ok <==> InsertAll(old(rows), Entries(TableItems(input, def), parse)).Some?
      ensures ok ==> rows == InsertAll(old(rows), Entries(TableItems(input, def), parse)).value
      ensures deferred == AllDeferred(TableItems(input, def), parse) && rowCount == |TableItems(input, def)|
    {
      var source := SourceOf(input, def.name).rows;
      ghost var items := TableItems(input, def);
      rowCount, deferred := |source|, [];
      if |source| == 0 {
        ok := true;
        return;
      }
      var convertedRows;
      convertedRows, deferred := ConvertRows(source, def, columns, parse);
      assert EntriesOf(def, convertedRows) == Entries(items, parse);
      ok := BatchInsert(def, convertedRows, batchSize);
    }

    /** One table of the list, unless both sides have no column in common. */
    method InsertTable(input: Input, defs: seq<TableDef>, i: nat, batchSize: nat, parse: Parser, ghost before: Db, totalRows: nat, deferred: seq<Update>)
      returns (ok: bool, totalRows': nat, deferred': seq<Update>)
      requires batchSize > 0 && i < |defs|
      requires Inserted(before, input, defs[..i], parse, rows, totalRows, deferred)
      modifies this
      ensures ok ==> Inserted(before, input, defs[..i + 1], parse, rows, totalRows', deferred')
      ensures !ok ==> InsertAll(before, Entries(AllItems(input, defs[..i + 1]), parse)).None?
    {
      ok, totalRows', deferred' := true, totalRows, deferred;
      TablesSnoc(before, input, defs, i, parse);
      var columns := CommonColumns(input, defs[i].name);
      if columns != [] {
        var count, more;
        ok, count, more := MigrateTable(input, defs[i], columns, batchSize, parse);
        deferred', totalRows' := deferred + more, totalRows + count;
      }
    }

    /** Inserts all tables in the order of the definitions. */
    method InsertTables(input: Input, defs: seq<TableDef>, batchSize: nat, parse: Parser)
      returns (ok: bool, totalRows: nat, deferred: seq<Update>)
      requires batchSize > 0
      modifies this
      ensures ok ==> Inserted(old(rows), input, defs, parse, rows, totalRows, deferred)
      ensures !ok ==> InsertAll(old(rows), Entries(AllItems(input, defs), parse)).None?
    {
      ok, totalRows, deferred := true, 0, [];
      var i := 0;
      while i < |defs|
        invariant i <= |defs|
        invariant Inserted(old(rows), input, defs[..i], parse, rows, totalRows, deferred)
      {
        ok, totalRows, deferred := InsertTable(input, defs, i, batchSize, parse, old(rows), totalRows, deferred);
        if !ok {
          RefusedStaysRefused(old(rows), input, defs, i + 1, parse);
          return;
        }
        i := i + 1;
      }
      assert defs[..|defs|] == defs;
      ok := true;
    }

    /**
     * The whole script. It succeeds exactly when the keys are complete, pairwise different and new to the
     * (possibly cleaned) target; then the target is the direct copy, and in every other case, and in a dry run,
     * it is what it was.
     */
    method Migrate(input: Input, clean: bool, dryRun: bool, dependents: set<string>, batchSize: nat, parse: Parser)
      returns (ok: bool, totalRows: nat)
      requires batchSize > 0 && ProperCatalogue(input)
      modifies this
      ensures ok <==> UniqueKeys(Base(old(rows), clean, dependents), Locs(Entries(AllItems(input, TABLE_DEFS), parse)))
      ensures rows == if ok && !dryRun then DirectCopy(Base(old(rows), clean, dependents), AllItems(input, TABLE_DEFS), parse) else old(rows)
      ensures ok ==> totalRows == |AllItems(input, TABLE_DEFS)|
      ensures ok <==> KeysAreFit(Base(old(rows), clean, dependents), AllItems(input, TABLE_DEFS))
      ensures ok && !dryRun ==> forall d, k: nat :: IsSourceRow(input, TABLE_DEFS, d, k) ==> HasCopy(rows, input, d, k, parse)
      ensures ok && !dryRun ==> forall l :: !NamesSourceRow(input, TABLE_DEFS, l) ==>
                && (l in rows <==> l in old(rows) && !(clean && (l.table in TRUNCATED || l.table in dependents)))
                && (l in rows ==> rows[l] == old(rows)[l])
    {
      CopyIsTheSource(rows, input, clean, dependents, parse);
      var begin := rows;
      if clean {
        rows := Cleaned(rows, TRUNCATED + dependents);
      }
      ghost var base, items := rows, AllItems(input, TABLE_DEFS);
      var deferred;
      ok, totalRows, deferred := InsertTables(input, TABLE_DEFS, batchSize, parse);
      InsertAllIff(base, Entries(items, parse));
      if !ok {
        rows := begin;
        return;
      }
      var _ := ApplyDeferredUpdates(deferred);
      forall d | d in TABLE_DEFS ensures PlainKey(d) {
        TableDefsArePlain(d);
      }
      ItemsAreWellFormed(input, TABLE_DEFS);
      TwoPhasesAreDirect(base, items, parse);
      if dryRun {
        rows := begin;
      }
    }
  }

  // ---------------------------------------------------------------- tables in sequence

  lemma {:induction false} NextBatch(db: Db, all: seq<Entry>, i: nat, end: nat)
    requires i <= end <= |all|
    ensures InsertAll(db, all[..end])
            == if InsertAll(db, all[..i]).Some? then InsertAll(InsertAll(db, all[..i]).value, all[i..end]) else None
  {
    assert all[..i] + all[i..end] == all[..end];
    InsertConcat(db, all[..i], all[i..end]);
  }

  lemma EntriesSlice(def: TableDef, rows: seq<Row>, i: nat, end: nat)
    requires i <= end <= |rows|
    ensures EntriesOf(def, rows[i..end]) == EntriesOf(def, rows)[i..end]
  {
  }

  lemma EntriesConcat(a: seq<Item>, b: seq<Item>, parse: Parser)
    ensures Entries(a + b, parse) == Entries(a, parse) + Entries(b, parse)
  {
  }

  lemma {:induction false} DeferredConcat(a: seq<Item>, b: seq<Item>, parse: Parser)
    ensures AllDeferred(a + b, parse) == AllDeferred(a, parse) + AllDeferred(b, parse)
  {
    if b == [] {
      assert a + b == a;
    } else {
      var init, last := b[..|b| - 1], b[|b| - 1];
      DeferredConcat(a, init, parse);
      assert a + b == (a + init) + [last] && b == init + [last];
      DeferredSnoc(a + init, last, parse);
      DeferredSnoc(init, last, parse);
      Associate(AllDeferred(a, parse), AllDeferred(init, parse), Deferred(last, parse));
    }
  }

  lemma Associate<T>(a: seq<T>, b: seq<T>, c: seq<T>)
    ensures a + (b + c) == (a + b) + c
  {
  }

  /** The rows of the given tables are in, counted, and their updates collected. */
  ghost predicate Inserted(before: Db, input: Input, defs: seq<TableDef>, parse: Parser, after: Db, totalRows: nat, deferred: seq<Update>) {
    var items := AllItems(input, defs);
    InsertAll(before, Entries(items, parse)) == Some(after) && deferred == AllDeferred(items, parse) && totalRows == |items|
  }

  /** One table more: its rows go in after those before it. */
  lemma {:induction false} TablesSnoc(db: Db, input: Input, defs: seq<TableDef>, i: nat, parse: Parser)
    requires i < |defs|
    ensures var before, table, all := AllItems(input, defs[..i]), TableItems(input, defs[i]), AllItems(input, defs[..i + 1]);
            && all == before + table
            && AllDeferred(all, parse) == AllDeferred(before, parse) + AllDeferred(table, parse)
            && InsertAll(db, Entries(all, parse))
               == if InsertAll(db, Entries(before, parse)).None? then None
                  else InsertAll(InsertAll(db, Entries(before, parse)).value, Entries(table, parse))
  {
    assert defs[..i + 1][..i] == defs[..i];
    var before, table := AllItems(input, defs[..i]), TableItems(input, defs[i]);
    EntriesConcat(before, table, parse);
    InsertConcat(db, Entries(before, parse), Entries(table, parse));
    DeferredConcat(before, table, parse);
  }

  lemma {:induction false} RefusedStaysRefused(db: Db, input: Input, defs: seq<TableDef>, n: nat, parse: Parser)
    requires n <= |defs| && InsertAll(db, Entries(AllItems(input, defs[..n]), parse)).None?
    ensures InsertAll(db, Entries(AllItems(input, defs), parse)).None?
    decreases |defs| - n
  {
    if n == |defs| {
      assert defs[..n] == defs;
    } else {
      TablesSnoc(db, input, defs, n, parse);
      RefusedStaysRefused(db, input, defs, n + 1, parse);
    }
  }

  // ---------------------------------------------------------------- the target in terms of the source

  /** Row `k` of a listed table that both sides have, with some column in common. */
  ghost predicate IsSourceRow(input: Input, defs: seq<TableDef>, d: TableDef, k: nat) {
    && d in defs && d.name in input.source && d.name in input.target
    && k < |input.source[d.name].rows|
    && exists col :: col in input.source[d.name].columns && col in input.target[d.name]
  }

  /** The database holds that row under its key, in the columns both sides list, cell by cell. */
  ghost predicate HasCopy(db: Db, input: Input, d: TableDef, k: nat, parse: Parser)
    requires IsSourceRow(input, [d], d, k)
  {
    var row := input.source[d.name].rows[k];
    exists l :: l in db && l.table == d.name && IsKey(d, row, l.key)
      && (forall col :: col in db[l] <==> col in input.source[d.name].columns && col in input.target[d.name])
      && (forall col :: col in db[l] ==> Copies(d, col, parse, if col in row then row[col] else Null, db[l][col]))
  }

  /** The place of some source row. */
  ghost predicate NamesSourceRow(input: Input, defs: seq<TableDef>, l: Loc) {
    exists d, k: nat :: IsSourceRow(input, defs, d, k) && l.table == d.name && IsKey(d, input.source[d.name].rows[k], l.key)
  }

  lemma {:induction false} CommonColumnsIff(input: Input, name: string, col: Column)
    ensures col in CommonColumns(input, name)
            <==> name in input.source && name in input.target && col in input.source[name].columns && col in input.target[name]
  {
    FilterMembers(if name in input.target then input.target[name] else [], c => c in SourceOf(input, name).columns, col);
  }

  lemma TakesPartIff(input: Input, d: TableDef)
    ensures CommonColumns(input, d.name) != []
            <==> (d.name in input.source && d.name in input.target
                  && exists col :: col in input.source[d.name].columns && col in input.target[d.name])
  {
    var columns := CommonColumns(input, d.name);
    if columns != [] {
      CommonColumnsIff(input, d.name, columns[0]);
    }
    if d.name in input.source && d.name in input.target {
      forall col | col in input.source[d.name].columns && col in input.target[d.name] ensures columns != [] {
        CommonColumnsIff(input, d.name, col);
      }
    }
  }

  lemma {:induction false} RowsAreItems(input: Input, defs: seq<TableDef>, d: TableDef, k: nat) returns (i: nat)
    requires IsSourceRow(input, defs, d, k)
    ensures i < |AllItems(input, defs)|
    ensures AllItems(input, defs)[i] == Item(d, CommonColumns(input, d.name), input.source[d.name].rows[k])
  {
    var n := |defs| - 1;
    TakesPartIff(input, d);
    if defs[n] == d {
      i := |AllItems(input, defs[..n])| + k;
    } else {
      assert defs == defs[..n] + [defs[n]];
      i := RowsAreItems(input, defs[..n], d, k);
    }
  }

  lemma {:induction false} ItemsAreRows(input: Input, defs: seq<TableDef>, i: nat) returns (d: TableDef, k: nat)
    requires i < |AllItems(input, defs)|
    ensures IsSourceRow(input, defs, d, k)
    ensures AllItems(input, defs)[i] == Item(d, CommonColumns(input, d.name), input.source[d.name].rows[k])
  {
    var n := |defs| - 1;
    var before := |AllItems(input, defs[..n])|;
    if i < before {
      d, k := ItemsAreRows(input, defs[..n], i);
      assert d in defs;
    } else {
      d, k := defs[n], i - before;
      TakesPartIff(input, d);
      assert d in defs;
    }
  }

  lemma {:induction false} RowHasCopy(db: Db, input: Input, defs: seq<TableDef>, d: TableDef, k: nat, parse: Parser)
    requires PlainKeys(AllItems(input, defs)) && UniqueKeys(db, Locs(Entries(AllItems(input, defs), parse)))
    requires IsSourceRow(input, defs, d, k)
    ensures HasCopy(DirectCopy(db, AllItems(input, defs), parse), input, d, k, parse)
  {
    var items := AllItems(input, defs);
    var i := RowsAreItems(input, defs, d, k);
    CopyHoldsRow(db, items, parse, i);
    RowIsCopied(items[i], parse);
    var l, copy := LocOf(items[i]), DirectCopy(db, items, parse);
    forall col ensures col in copy[l] <==> col in input.source[d.name].columns && col in input.target[d.name] {
      CommonColumnsIff(input, d.name, col);
    }
    forall col | col in copy[l]
      ensures Copies(d, col, parse, if col in input.source[d.name].rows[k] then input.source[d.name].rows[k][col] else Null, copy[l][col])
    {
      assert col in items[i].columns;
    }
  }

  lemma {:induction false} OtherRowsStay(db: Db, input: Input, defs: seq<TableDef>, parse: Parser, l: Loc)
    requires !NamesSourceRow(input, defs, l)
    ensures var copy := DirectCopy(db, AllItems(input, defs), parse);
            (l in copy <==> l in db) && (l in copy ==> copy[l] == db[l])
  {
    var items := AllItems(input, defs);
    forall i | 0 <= i < |items| ensures LocOf(items[i]) != l {
      var d, k := ItemsAreRows(input, defs, i);
      RowIsCopied(items[i], parse);
    }
    ElsewhereUntouched(db, items, parse, l);
  }

  /** The direct copy, read back: when it is made, what it holds of every source row, and what it leaves alone. */
  lemma {:induction false} CopyIsTheSource(db: Db, input: Input, clean: bool, dependents: set<string>, parse: Parser)
    requires ProperCatalogue(input)
    ensures var base, items := Base(db, clean, dependents), AllItems(input, TABLE_DEFS);
            && (UniqueKeys(base, Locs(Entries(items, parse))) <==> KeysAreFit(base, items))
            && (UniqueKeys(base, Locs(Entries(items, parse))) ==>
                  forall d, k: nat :: IsSourceRow(input, TABLE_DEFS, d, k) ==> HasCopy(DirectCopy(base, items, parse), input, d, k, parse))
            && (forall l :: !NamesSourceRow(input, TABLE_DEFS, l) ==>
                  && (l in DirectCopy(base, items, parse) <==> l in db && !(clean && (l.table in TRUNCATED || l.table in dependents)))
                  && (l in DirectCopy(base, items, parse) ==> DirectCopy(base, items, parse)[l] == db[l]))
  {
    var base, items := Base(db, clean, dependents), AllItems(input, TABLE_DEFS);
    forall d | d in TABLE_DEFS ensures PlainKey(d) {
      TableDefsArePlain(d);
    }
    ItemsAreWellFormed(input, TABLE_DEFS);
    KeysDecide(base, items, parse);
    forall d, k: nat | IsSourceRow(input, TABLE_DEFS, d, k) && UniqueKeys(base, Locs(Entries(items, parse)))
      ensures HasCopy(DirectCopy(base, items, parse), input, d, k, parse)
    {
      RowHasCopy(base, input, TABLE_DEFS, d, k, parse);
    }
    forall l | !NamesSourceRow(input, TABLE_DEFS, l)
      ensures (l in DirectCopy(base, items, parse) <==> l in base) && (l in DirectCopy(base, items, parse) ==> DirectCopy(base, items, parse)[l] == base[l])
    {
      OtherRowsStay(base, input, TABLE_DEFS, parse, l);
    }
  }

  lemma ApiKeysAreListed()
    ensures TableDef("api_keys", ["id"], ["is_valid"], [], []) in TABLE_DEFS
  {
    assert NO_FOREIGN_KEYS[1] in TABLE_DEFS;
  }

  lemma ValidKeyCell(copied: Row, d: TableDef, parse: Parser, row: Row)
    requires d.booleanCols == ["is_valid"] && d.jsonCols == []
    requires row == map["id" := Text("k"), "is_valid" := Int(1)]
    requires forall col :: col in copied <==> col in ["id", "is_valid"]
    requires forall col :: col in copied ==> Copies(d, col, parse, if col in row then row[col] else Null, copied[col])
    ensures copied == map["id" := Text("k"), "is_valid" := Bool(true)]
  {
    assert "id" in ["id", "is_valid"] && "is_valid" in ["id", "is_valid"];
    assert "id" !in d.booleanCols;
  }

  /** A key that SQLite holds as valid, as 1, is valid in the target. */
  lemma {:induction false} ValidKeyStaysValid(db: Db, input: Input, parse: Parser, row: Row, k: nat)
    requires "api_keys" in input.source && "api_keys" in input.target && ProperCatalogue(input)
    requires input.source["api_keys"].columns == ["id", "is_valid"] == input.target["api_keys"]
    requires row == map["id" := Text("k"), "is_valid" := Int(1)]
    requires k < |input.source["api_keys"].rows| && input.source["api_keys"].rows[k] == row
    requires KeysAreFit(db, AllItems(input, TABLE_DEFS))
    ensures var copy, l := DirectCopy(db, AllItems(input, TABLE_DEFS), parse), Loc("api_keys", [Text("k")]);
            l in copy && copy[l] == map["id" := Text("k"), "is_valid" := Bool(true)]
  {
    var d := TableDef("api_keys", ["id"], ["is_valid"], [], []);
    ApiKeysAreListed();
    assert "id" in input.source["api_keys"].columns && "id" in input.target["api_keys"];
    assert IsSourceRow(input, TABLE_DEFS, d, k);
    CopyIsTheSource(db, input, false, {}, parse);
    KeyRowIsValid(DirectCopy(db, AllItems(input, TABLE_DEFS), parse), input, d, k, parse, row);
  }

  lemma KeyRowIsValid(copy: Db, input: Input, d: TableDef, k: nat, parse: Parser, row: Row)
    requires d == TableDef("api_keys", ["id"], ["is_valid"], [], [])
    requires IsSourceRow(input, [d], d, k) && HasCopy(copy, input, d, k, parse)
    requires input.source["api_keys"].columns == ["id", "is_valid"] == input.target["api_keys"]
    requires input.source["api_keys"].rows[k] == row == map["id" := Text("k"), "is_valid" := Int(1)]
    ensures Loc("api_keys", [Text("k")]) in copy
    ensures copy[Loc("api_keys", [Text("k")])] == map["id" := Text("k"), "is_valid" := Bool(true)]
  {
    var l :| l in copy && l.table == d.name && IsKey(d, row, l.key)
      && (forall col :: col in copy[l] <==> col in input.source[d.name].columns && col in input.target[d.name])
      && (forall col :: col in copy[l] ==> Copies(d, col, parse, if col in row then row[col] else Null, copy[l][col]));
    assert l.key == [Text("k")];
    ValidKeyCell(copy[l], d, parse, row);
  }

  // ---------------------------------------------------------------- a clean run

  /** After cleaning, only the source can be at fault: its keys are complete and pairwise different, or the run fails. */
  lemma {:induction false} CleaningMakesRoom(db: Db, input: Input, dependents: set<string>, parse: Parser)
    requires ProperCatalogue(input)
    ensures var locs := Locs(Entries(AllItems(input, TABLE_DEFS), parse));
            UniqueKeys(Base(db, true, dependents), locs) <==> Distinct(locs) && forall l :: l in locs ==> Null !in l.key
  {
    var items := AllItems(input, TABLE_DEFS);
    var entries := Entries(items, parse);
    forall d | d in TABLE_DEFS ensures PlainKey(d) && d.name in TRUNCATED {
      TableDefsArePlain(d);
    }
    ItemsAreWellFormed(input, TABLE_DEFS);
    forall l | l in Locs(entries) ensures l !in Base(db, true, dependents) {
      var i :| 0 <= i < |entries| && Locs(entries)[i] == l;
      assert entries[i].def == items[i].def;
    }
  }

  /** And a clean copy holds the source's rows and no others in the migrated tables. */
  lemma {:induction false} CleanCopyIsTheSource(db: Db, input: Input, dependents: set<string>, parse: Parser, l: Loc)
    requires l.table in TRUNCATED
    ensures l in DirectCopy(Base(db, true, dependents), AllItems(input, TABLE_DEFS), parse)
            <==> exists i :: 0 <= i < |AllItems(input, TABLE_DEFS)| && LocOf(AllItems(input, TABLE_DEFS)[i]) == l
  {
    DomainOfCopy(Base(db, true, dependents), AllItems(input, TABLE_DEFS), parse, l);
  }

  lemma {:induction false} DomainOfCopy(db: Db, items: seq<Item>, parse: Parser, l: Loc)
    ensures l in DirectCopy(db, items, parse) <==> l in db || exists i :: 0 <= i < |items| && LocOf(items[i]) == l
  {
    if items != [] {
      var n := |items| - 1;
      DomainOfCopy(db, items[..n], parse, l);
      assert forall i :: 0 <= i < n ==> items[..n][i] == items[i];
    }
  }
}
