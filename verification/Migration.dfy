/**
 * The SQLite to PostgreSQL copy. Foreign keys that form cycles are inserted as NULL and set afterwards;
 * this module shows that the detour leaves no trace.
 */
module Migration {
  import opened Common

  datatype Value = Null | Int(n: int) | Bool(b: bool) | Text(s: string) | Json(j: string)

  type Column = string

  type Row = map<Column, Value>

  datatype TableDef = TableDef(name: string, primaryKey: seq<Column>, booleanCols: seq<Column>, jsonCols: seq<Column>, circularFkCols: seq<Column>)

  /** A row's place in the target: table and primary-key values. */
  datatype Loc = Loc(table: string, key: seq<Value>)

  /** The target database, all tables in one map. */
  type Db = map<Loc, Row>

  datatype Update = Update(loc: Loc, column: Column, value: Value)

  /** One source row on its way, with its table and the columns both sides have. */
  datatype Item = Item(def: TableDef, columns: seq<Column>, row: Row)

  /** JSON.parse, which may fail. */
  type Parser = string -> Option<Value>

  // ---------------------------------------------------------------- conversion

  function Get(row: Row, col: Column): Value {
    if col in row then row[col] else Null
  }

  function ConvertBoolean(v: Value): Value {
    if v == Int(1) || v == Bool(true) then Bool(true) else if v == Int(0) || v == Bool(false) then Bool(false) else Null
  }

  function ConvertJson(v: Value, parse: Parser): Value {
    if v.Text? && parse(v.s).Some? then parse(v.s).value else v
  }

  /** The column-wise conversion, before any thought of cycles. */
  function Convert(item: Item, parse: Parser, col: Column): Value {
    var v := Get(item.row, col);
    var v1 := if col in item.def.booleanCols then ConvertBoolean(v) else v;
    if col in item.def.jsonCols then ConvertJson(v1, parse) else v1
  }

  function KeyOf(def: TableDef, row: Row): Loc {
    Loc(def.name, seq(|def.primaryKey|, i requires 0 <= i < |def.primaryKey| => Get(row, def.primaryKey[i])))
  }

  /** Where the deferred updates of a source row look for it. */
  function LocOf(item: Item): Loc {
    KeyOf(item.def, item.row)
  }

  function DirectRow(item: Item, parse: Parser): Row {
    map col | col in item.columns :: Convert(item, parse, col)
  }

  function InsertedRow(item: Item, parse: Parser): Row {
    map col | col in item.columns :: if col in item.def.circularFkCols then Null else Convert(item, parse, col)
  }

  predicate Defers(item: Item, parse: Parser, col: Column) {
    col in item.def.circularFkCols && Convert(item, parse, col) != Null
  }

  function DeferredFrom(item: Item, parse: Parser, n: nat): seq<Update>
    requires n <= |item.columns|
  {
    if n == 0 then []
    else
      var col := item.columns[n - 1];
      DeferredFrom(item, parse, n - 1)
      + if Defers(item, parse, col) then [Update(LocOf(item), col, Convert(item, parse, col))] else []
  }

  function Deferred(item: Item, parse: Parser): seq<Update> {
    DeferredFrom(item, parse, |item.columns|)
  }

  function AllDeferred(items: seq<Item>, parse: Parser): seq<Update> {
    if items == [] then [] else AllDeferred(items[..|items| - 1], parse) + Deferred(items[|items| - 1], parse)
  }

  // ---------------------------------------------------------------- statements

  /** A row of the target about to be inserted. */
  datatype Entry = Entry(def: TableDef, row: Row) {
    function Loc(): Loc {
      KeyOf(def, row)
    }
  }

  /** The primary key is complete and not taken. */
  predicate Accepts(db: Db, loc: Loc) {
    Null !in loc.key && loc !in db
  }

  /** INSERT: one refused row refuses the whole. */
  function InsertAll(db: Db, entries: seq<Entry>): Option<Db> {
    if entries == [] then Some(db)
    else
      var r := InsertAll(db, entries[..|entries| - 1]);
      var last := entries[|entries| - 1];
      if r.None? || !Accepts(r.value, last.Loc()) then None else Some(r.value[last.Loc() := last.row])
  }

  function Entries(items: seq<Item>, parse: Parser): seq<Entry> {
    seq(|items|, i requires 0 <= i < |items| => Entry(items[i].def, InsertedRow(items[i], parse)))
  }

  /** UPDATE … SET column = value WHERE primary key = …: touches the row if it is there. */
  function Apply(db: Db, u: Update): Db {
    if u.loc in db then db[u.loc := db[u.loc][u.column := u.value]] else db
  }

  function ApplyAll(db: Db, us: seq<Update>): Db {
    if us == [] then db else Apply(ApplyAll(db, us[..|us| - 1]), us[|us| - 1])
  }

  /** The reference: every row converted column by column and put in place. */
  function DirectCopy(db: Db, items: seq<Item>, parse: Parser): Db {
    if items == [] then db
    else
      var last := items[|items| - 1];
      DirectCopy(db, items[..|items| - 1], parse)[LocOf(last) := DirectRow(last, parse)]
  }

  // ---------------------------------------------------------------- when inserting succeeds

  function Locs(entries: seq<Entry>): (locs: seq<Loc>)
    ensures |locs| == |entries|
  {
    seq(|entries|, i requires 0 <= i < |entries| => entries[i].Loc())
  }

  /** Primary keys are complete, new to the target, and pairwise different. */
  ghost predicate UniqueKeys(db: Db, locs: seq<Loc>) {
    && (forall l :: l in locs ==> Accepts(db, l))
    && (forall i, j :: 0 <= i < j < |locs| ==> locs[i] != locs[j])
  }

  lemma UniqueKeysSnoc(db: Db, locs: seq<Loc>, l: Loc)
    ensures UniqueKeys(db, locs + [l]) <==> UniqueKeys(db, locs) && Accepts(db, l) && l !in locs
  {
    var all := locs + [l];
    assert all[|locs|] == l;
    if UniqueKeys(db, all) {
      forall k | k in locs ensures Accepts(db, k) {
        assert k in all;
      }
      forall i, j | 0 <= i < j < |locs| ensures locs[i] != locs[j] {
        assert all[i] != all[j];
      }
      forall i | 0 <= i < |locs| ensures locs[i] != l {
        assert all[i] != all[|locs|];
      }
    }
  }

  lemma {:induction false} InsertedDomain(db: Db, entries: seq<Entry>)
    requires InsertAll(db, entries).Some?
    ensures forall l :: l in InsertAll(db, entries).value <==> l in db || l in Locs(entries)
  {
    if entries != [] {
      var n := |entries| - 1;
      InsertedDomain(db, entries[..n]);
      assert Locs(entries) == Locs(entries[..n]) + [entries[n].Loc()];
    }
  }

  /** Inserting succeeds exactly when the keys are complete, new and pairwise different. */
  lemma {:induction false} InsertAllIff(db: Db, entries: seq<Entry>)
    ensures InsertAll(db, entries).Some? <==> UniqueKeys(db, Locs(entries))
  {
    if entries != [] {
      var n := |entries| - 1;
      var init, l := entries[..n], entries[n].Loc();
      InsertAllIff(db, init);
      assert Locs(entries) == Locs(init) + [l];
      UniqueKeysSnoc(db, Locs(init), l);
      if InsertAll(db, init).Some? {
        InsertedDomain(db, init);
        assert Accepts(InsertAll(db, init).value, l) <==> Accepts(db, l) && l !in Locs(init);
      }
    }
  }

  /** Cutting the rows into batches changes neither the outcome nor the result. */
  lemma {:induction false} InsertConcat(db: Db, a: seq<Entry>, b: seq<Entry>)
    ensures InsertAll(db, a + b) == if InsertAll(db, a).Some? then InsertAll(InsertAll(db, a).value, b) else None
  {
    if b == [] {
      assert a + b == a;
    } else {
      var n := |b| - 1;
      InsertConcat(db, a, b[..n]);
      assert (a + b)[..|a + b| - 1] == a + b[..n];
    }
  }

  // ---------------------------------------------------------------- keys survive conversion

  /** No primary-key column is converted or held back. */
  predicate PlainKey(def: TableDef) {
    forall k :: k in def.primaryKey ==> k !in def.booleanCols && k !in def.jsonCols && k !in def.circularFkCols
  }

  /** A row is inserted under the key the deferred updates will look for. */
  lemma KeyIsKept(item: Item, parse: Parser)
    requires PlainKey(item.def) && Null !in KeyOf(item.def, InsertedRow(item, parse)).key
    ensures KeyOf(item.def, InsertedRow(item, parse)) == LocOf(item)
  {
    var pk, row := item.def.primaryKey, InsertedRow(item, parse);
    forall i | 0 <= i < |pk| ensures Get(row, pk[i]) == Get(item.row, pk[i]) {
      assert KeyOf(item.def, row).key[i] == Get(row, pk[i]);
      assert pk[i] in pk && pk[i] in row;
    }
    assert KeyOf(item.def, row).key == LocOf(item).key;
  }

  // ---------------------------------------------------------------- one row

  lemma {:induction false} ApplySnoc(db: Db, us: seq<Update>, u: Update)
    ensures ApplyAll(db, us + [u]) == Apply(ApplyAll(db, us), u)
  {
    assert (us + [u])[..|us|] == us;
  }

  lemma {:induction false} ApplyConcat(db: Db, a: seq<Update>, b: seq<Update>)
    ensures ApplyAll(db, a + b) == ApplyAll(ApplyAll(db, a), b)
  {
    if b == [] {
      assert a + b == a;
    } else {
      var n := |b| - 1;
      ApplyConcat(db, a, b[..n]);
      assert a + b == (a + b[..n]) + [b[n]];
      ApplySnoc(db, a + b[..n], b[n]);
    }
  }

  /** The row after the first `n` columns had their updates applied. */
  function PartlyUpdated(item: Item, parse: Parser, n: nat): Row
    requires n <= |item.columns|
  {
    map col | col in item.columns ::
      if col in item.def.circularFkCols && col !in item.columns[..n] then Null else Convert(item, parse, col)
  }

  lemma OneMoreColumn(item: Item, parse: Parser, n: nat)
    requires 0 < n <= |item.columns|
    ensures var col := item.columns[n - 1];
            PartlyUpdated(item, parse, n)
            == if Defers(item, parse, col) then PartlyUpdated(item, parse, n - 1)[col := Convert(item, parse, col)]
               else PartlyUpdated(item, parse, n - 1)
  {
    assert item.columns[..n] == item.columns[..n - 1] + [item.columns[n - 1]];
  }

  /** A row with its cells overwritten one after another. */
  function Written(row: Row, us: seq<Update>): Row {
    if us == [] then row else Written(row, us[..|us| - 1])[us[|us| - 1].column := us[|us| - 1].value]
  }

  lemma {:induction false} UpdatesOfOneRow(db: Db, loc: Loc, row: Row, us: seq<Update>)
    requires forall u :: u in us ==> u.loc == loc
    ensures ApplyAll(db[loc := row], us) == db[loc := Written(row, us)]
  {
    if us != [] {
      var n := |us| - 1;
      assert us[n] in us;
      UpdatesOfOneRow(db, loc, row, us[..n]);
      UpdateOneRow(db, Written(row, us[..n]), us[n]);
    }
  }

  lemma UpdateOneRow(db: Db, row: Row, u: Update)
    ensures Apply(db[u.loc := row], u) == db[u.loc := row[u.column := u.value]]
  {
  }

  lemma {:induction false} CellsFillIn(item: Item, parse: Parser, n: nat)
    requires n <= |item.columns|
    ensures Written(InsertedRow(item, parse), DeferredFrom(item, parse, n)) == PartlyUpdated(item, parse, n)
  {
    if n == 0 {
      assert PartlyUpdated(item, parse, 0) == InsertedRow(item, parse);
    } else {
      var col, us := item.columns[n - 1], DeferredFrom(item, parse, n - 1);
      CellsFillIn(item, parse, n - 1);
      OneMoreColumn(item, parse, n);
      if Defers(item, parse, col) {
        assert (us + [Update(LocOf(item), col, Convert(item, parse, col))])[..|us|] == us;
      } else {
        assert DeferredFrom(item, parse, n) == us;
      }
    }
  }

  /** The deferred updates of one row complete it. */
  lemma RowIsCompleted(db: Db, item: Item, parse: Parser)
    ensures ApplyAll(db[LocOf(item) := InsertedRow(item, parse)], Deferred(item, parse)) == db[LocOf(item) := DirectRow(item, parse)]
  {
    var n := |item.columns|;
    DeferredHaveLoc(item, parse, n);
    UpdatesOfOneRow(db, LocOf(item), InsertedRow(item, parse), DeferredFrom(item, parse, n));
    CellsFillIn(item, parse, n);
    assert item.columns[..n] == item.columns;
    assert PartlyUpdated(item, parse, n) == DirectRow(item, parse);
  }

  // ---------------------------------------------------------------- all rows

  lemma {:induction false} UpdatesElsewhere(db: Db, us: seq<Update>, loc: Loc, row: Row)
    requires forall u :: u in us ==> u.loc != loc
    ensures ApplyAll(db[loc := row], us) == ApplyAll(db, us)[loc := row]
  {
    if us != [] {
      var n := |us| - 1;
      UpdatesElsewhere(db, us[..n], loc, row);
      assert us[n] in us;
      UpdateElsewhere(ApplyAll(db, us[..n]), us[n], loc, row);
    }
  }

  lemma UpdateElsewhere(db: Db, u: Update, loc: Loc, row: Row)
    requires u.loc != loc
    ensures Apply(db[loc := row], u) == Apply(db, u)[loc := row]
  {
    if u.loc in db {
      var updated := db[u.loc][u.column := u.value];
      assert db[loc := row][u.loc := updated] == db[u.loc := updated][loc := row];
    }
  }

  lemma {:induction false} DeferredLocs(items: seq<Item>, parse: Parser, u: Update)
    requires u in AllDeferred(items, parse)
    ensures exists i :: 0 <= i < |items| && LocOf(items[i]) == u.loc && u in Deferred(items[i], parse)
  {
    var n := |items| - 1;
    if u in Deferred(items[n], parse) {
      DeferredHaveLoc(items[n], parse, |items[n].columns|);
    } else {
      DeferredLocs(items[..n], parse, u);
      var i :| 0 <= i < n && LocOf(items[..n][i]) == u.loc && u in Deferred(items[..n][i], parse);
      assert items[i] == items[..n][i];
    }
  }

  lemma {:induction false} DeferredHaveLoc(item: Item, parse: Parser, n: nat)
    requires n <= |item.columns|
    ensures forall u :: u in DeferredFrom(item, parse, n) ==>
              u.loc == LocOf(item) && u.column in item.columns[..n] && Defers(item, parse, u.column) && u.value == Convert(item, parse, u.column)
  {
    if n > 0 {
      DeferredHaveLoc(item, parse, n - 1);
      assert item.columns[..n] == item.columns[..n - 1] + [item.columns[n - 1]];
    }
  }

  ghost predicate PlainKeys(items: seq<Item>) {
    forall i :: 0 <= i < |items| ==> PlainKey(items[i].def)
  }

  /** The rows go in, under the keys of their source rows, all of them different. */
  lemma {:induction false} KeysAreKept(db: Db, items: seq<Item>, parse: Parser)
    requires PlainKeys(items) && InsertAll(db, Entries(items, parse)).Some?
    ensures forall i :: 0 <= i < |items| ==> Entries(items, parse)[i].Loc() == LocOf(items[i])
    ensures forall i, j :: 0 <= i < j < |items| ==> LocOf(items[i]) != LocOf(items[j])
  {
    var entries := Entries(items, parse);
    InsertAllIff(db, entries);
    forall i | 0 <= i < |items| ensures Locs(entries)[i] == entries[i].Loc() == LocOf(items[i]) {
      assert Locs(entries)[i] in Locs(entries);
      KeyIsKept(items[i], parse);
    }
  }

  /** Two phases equal one: whenever the rows go in, updating them completes the direct copy. */
  lemma {:induction false} TwoPhasesAreDirect(db: Db, items: seq<Item>, parse: Parser)
    requires PlainKeys(items) && InsertAll(db, Entries(items, parse)).Some?
    ensures ApplyAll(InsertAll(db, Entries(items, parse)).value, AllDeferred(items, parse)) == DirectCopy(db, items, parse)
  {
    if items != [] {
      var n := |items| - 1;
      var init, last := items[..n], items[n];
      KeysAreKept(db, items, parse);
      assert Entries(items, parse)[n].Loc() == LocOf(last);
      assert Entries(items, parse)[..n] == Entries(init, parse);
      TwoPhasesAreDirect(db, init, parse);
      OneMoreRow(InsertAll(db, Entries(init, parse)).value, init, last, parse);
    }
  }

  lemma {:induction false} OneMoreRow(d: Db, init: seq<Item>, last: Item, parse: Parser)
    requires forall i :: 0 <= i < |init| ==> LocOf(init[i]) != LocOf(last)
    ensures ApplyAll(d[LocOf(last) := InsertedRow(last, parse)], AllDeferred(init, parse) + Deferred(last, parse))
            == ApplyAll(d, AllDeferred(init, parse))[LocOf(last) := DirectRow(last, parse)]
  {
    var us := AllDeferred(init, parse);
    forall u | u in us ensures u.loc != LocOf(last) {
      DeferredLocs(init, parse, u);
    }
    UpdatesElsewhere(d, us, LocOf(last), InsertedRow(last, parse));
    ApplyConcat(d[LocOf(last) := InsertedRow(last, parse)], us, Deferred(last, parse));
    RowIsCompleted(ApplyAll(d, us), last, parse);
  }

  // ---------------------------------------------------------------- any order

  ghost predicate DistinctTargets(us: seq<Update>) {
    forall i, j :: 0 <= i < j < |us| ==> us[i].loc != us[j].loc || us[i].column != us[j].column
  }

  lemma {:induction false} MoveToEnd(db: Db, u: Update, us: seq<Update>)
    requires forall v :: v in us ==> v.loc != u.loc || v.column != u.column
    ensures ApplyAll(Apply(db, u), us) == Apply(ApplyAll(db, us), u)
  {
    if us != [] {
      var n := |us| - 1;
      MoveToEnd(db, u, us[..n]);
      var d, v := ApplyAll(db, us[..n]), us[n];
      assert v in us;
      Commute(d, u, v);
    }
  }

  lemma Commute(db: Db, u: Update, v: Update)
    requires v.loc != u.loc || v.column != u.column
    ensures Apply(Apply(db, u), v) == Apply(Apply(db, v), u)
  {
    if u.loc == v.loc && u.loc in db {
      var r := db[u.loc];
      assert r[u.column := u.value][v.column := v.value] == r[v.column := v.value][u.column := u.value];
    }
  }

  lemma {:induction false} PullOut(db: Db, a: seq<Update>, u: Update, b: seq<Update>)
    requires DistinctTargets(a + [u] + b)
    ensures ApplyAll(db, a + [u] + b) == Apply(ApplyAll(db, a + b), u)
  {
    var us := a + [u] + b;
    forall v | v in b ensures v.loc != u.loc || v.column != u.column {
      var j :| 0 <= j < |b| && b[j] == v;
      assert us[|a|] == u && us[|a| + 1 + j] == v;
    }
    ApplyConcat(db, a + [u], b);
    ApplySnoc(db, a, u);
    MoveToEnd(ApplyAll(db, a), u, b);
    ApplyConcat(db, a, b);
  }

  lemma DistinctWithout(a: seq<Update>, u: Update, b: seq<Update>)
    requires DistinctTargets(a + [u] + b)
    ensures DistinctTargets(a + b)
  {
    var us := a + [u] + b;
    forall j, k | 0 <= j < k < |a + b| ensures (a + b)[j].loc != (a + b)[k].loc || (a + b)[j].column != (a + b)[k].column {
      var j', k' := if j < |a| then j else j + 1, if k < |a| then k else k + 1;
      assert us[j'] == (a + b)[j] && us[k'] == (a + b)[k];
    }
  }

  /** A permutation contains the other's last element somewhere; without it, a permutation remains. */
  lemma SplitAtLast<T>(us: seq<T>, vs: seq<T>) returns (a: seq<T>, b: seq<T>)
    requires multiset(us) == multiset(vs) && vs != []
    ensures us == a + [vs[|vs| - 1]] + b
    ensures multiset(a + b) == multiset(vs[..|vs| - 1])
  {
    var n := |vs| - 1;
    var u := vs[n];
    assert vs == vs[..n] + [u];
    assert u in multiset(us);
    var i :| 0 <= i < |us| && us[i] == u;
    a, b := us[..i], us[i + 1..];
    assert us == a + [u] + b;
    assert multiset(us) == multiset(a) + multiset{u} + multiset(b);
    assert multiset(vs) == multiset(vs[..n]) + multiset{u};
    assert multiset(a + b) == multiset(a) + multiset(b);
    assert multiset(a + b) == multiset(us) - multiset{u};
  }

  /** Updates of different cells may be applied in any order. */
  lemma {:induction false} AnyOrder(db: Db, us: seq<Update>, vs: seq<Update>)
    requires DistinctTargets(us) && multiset(us) == multiset(vs)
    ensures ApplyAll(db, us) == ApplyAll(db, vs)
    decreases |vs|
  {
    if vs == [] {
      assert |multiset(us)| == 0;
    } else {
      var a, b := SplitAtLast(us, vs);
      PullOut(db, a, vs[|vs| - 1], b);
      DistinctWithout(a, vs[|vs| - 1], b);
      AnyOrder(db, a + b, vs[..|vs| - 1]);
    }
  }

  ghost predicate DistinctColumns(item: Item) {
    forall i, j :: 0 <= i < j < |item.columns| ==> item.columns[i] != item.columns[j]
  }

  lemma {:induction false} DeferredDistinct(item: Item, parse: Parser, n: nat)
    requires n <= |item.columns| && DistinctColumns(item)
    ensures DistinctTargets(DeferredFrom(item, parse, n))
  {
    if n > 0 {
      DeferredDistinct(item, parse, n - 1);
      DeferredHaveLoc(item, parse, n - 1);
      var us := DeferredFrom(item, parse, n - 1);
      forall i | 0 <= i < |us| ensures us[i].column != item.columns[n - 1] {
        assert us[i] in us;
      }
    }
  }

  ghost predicate WellFormed(items: seq<Item>) {
    PlainKeys(items) && forall i :: 0 <= i < |items| ==> DistinctColumns(items[i])
  }

  lemma {:induction false} AllDeferredDistinct(items: seq<Item>, parse: Parser)
    requires WellFormed(items) && forall i, j :: 0 <= i < j < |items| ==> LocOf(items[i]) != LocOf(items[j])
    ensures DistinctTargets(AllDeferred(items, parse))
  {
    if items != [] {
      var n := |items| - 1;
      var us, vs := AllDeferred(items[..n], parse), Deferred(items[n], parse);
      AllDeferredDistinct(items[..n], parse);
      DeferredDistinct(items[n], parse, |items[n].columns|);
      DeferredHaveLoc(items[n], parse, |items[n].columns|);
      forall i, j | 0 <= i < |us| && 0 <= j < |vs| ensures us[i].loc != vs[j].loc {
        assert us[i] in us && vs[j] in vs;
        DeferredLocs(items[..n], parse, us[i]);
      }
    }
  }

  /**
   * The central law: the copy succeeds exactly when the keys are complete, new and pairwise different, and then,
   * whatever the order of the deferred updates, the target ends as the direct copy.
   */
  lemma {:induction false} TwoPhasesAreDirectInAnyOrder(db: Db, items: seq<Item>, parse: Parser, us: seq<Update>)
    requires WellFormed(items) && multiset(us) == multiset(AllDeferred(items, parse))
    ensures InsertAll(db, Entries(items, parse)).Some? <==> UniqueKeys(db, Locs(Entries(items, parse)))
    ensures InsertAll(db, Entries(items, parse)).Some? ==>
              ApplyAll(InsertAll(db, Entries(items, parse)).value, us) == DirectCopy(db, items, parse)
  {
    InsertAllIff(db, Entries(items, parse));
    if InsertAll(db, Entries(items, parse)).Some? {
      TwoPhasesAreDirect(db, items, parse);
      KeysAreKept(db, items, parse);
      AllDeferredDistinct(items, parse);
      AnyOrder(InsertAll(db, Entries(items, parse)).value, AllDeferred(items, parse), us);
    }
  }

  // ---------------------------------------------------------------- what the copy holds

  lemma {:induction false} ElsewhereUntouched(db: Db, items: seq<Item>, parse: Parser, l: Loc)
    requires forall i :: 0 <= i < |items| ==> LocOf(items[i]) != l
    ensures l in DirectCopy(db, items, parse) <==> l in db
    ensures l in db ==> DirectCopy(db, items, parse)[l] == db[l]
  {
    if items != [] {
      var n := |items| - 1;
      assert LocOf(items[n]) != l;
      ElsewhereUntouched(db, items[..n], parse, l);
    }
  }

  /** Every source row is found under its own key, converted column by column. */
  lemma {:induction false} EveryRowArrives(db: Db, items: seq<Item>, parse: Parser, i: nat)
    requires i < |items| && forall j :: i < j < |items| ==> LocOf(items[j]) != LocOf(items[i])
    ensures LocOf(items[i]) in DirectCopy(db, items, parse)
    ensures DirectCopy(db, items, parse)[LocOf(items[i])] == DirectRow(items[i], parse)
  {
    var n := |items| - 1;
    if i < n {
      assert LocOf(items[n]) != LocOf(items[i]);
      EveryRowArrives(db, items[..n], parse, i);
    }
  }
}
