/** What a copied row holds, cell by cell, in terms of the source's cells. */
module CopiedCells {
  import opened Common
  import opened Migration

  /** What the copy of a source cell may be, by the kind of its column. */
  ghost predicate Copies(def: TableDef, col: Column, parse: Parser, cell: Value, copy: Value) {
    && (col in def.booleanCols ==>
          && (copy == Bool(true) <==> cell == Int(1) || cell == Bool(true))
          && (copy == Bool(false) <==> cell == Int(0) || cell == Bool(false))
          && (copy == Bool(true) || copy == Bool(false) || copy == Null))
    && (col in def.jsonCols && col !in def.booleanCols ==>
          && (cell.Text? && parse(cell.s).Some? ==> copy == parse(cell.s).value)
          && (!cell.Text? || parse(cell.s).None? ==> copy == cell))
    && (col !in def.jsonCols && col !in def.booleanCols ==> copy == cell)
  }

  /** The target row has the common columns and no others, and each holds the copy of the source's cell, NULL if it has none. */
  ghost predicate RowCopied(def: TableDef, columns: seq<Column>, parse: Parser, row: Row, copied: Row) {
    && (forall col :: col in copied <==> col in columns)
    && (forall col :: col in columns ==> Copies(def, col, parse, if col in row then row[col] else Null, copied[col]))
  }

  /** The row as first inserted: the circular foreign keys are NULL, all other cells are copied. */
  ghost predicate RowHeldBack(def: TableDef, columns: seq<Column>, parse: Parser, row: Row, inserted: Row) {
    && (forall col :: col in inserted <==> col in columns)
    && (forall col :: col in columns && col in def.circularFkCols ==> inserted[col] == Null)
    && (forall col :: col in columns && col !in def.circularFkCols ==>
          Copies(def, col, parse, if col in row then row[col] else Null, inserted[col]))
  }

  /** The update is for a circular foreign key of this very row, and brings the copy of its cell. */
  ghost predicate UpdateFor(def: TableDef, columns: seq<Column>, parse: Parser, row: Row, u: Update) {
    && u.loc.table == def.name && IsKey(def, row, u.loc.key)
    && u.column in columns && u.column in def.circularFkCols && u.value != Null
    && Copies(def, u.column, parse, if u.column in row then row[u.column] else Null, u.value)
  }

  /** The updates held back for a row: each is for it, and a circular foreign key without one copies to NULL. */
  ghost predicate UpdatesFor(def: TableDef, columns: seq<Column>, parse: Parser, row: Row, us: seq<Update>) {
    && (forall u :: u in us ==> UpdateFor(def, columns, parse, row, u))
    && (forall col :: col in columns && col in def.circularFkCols ==>
          || (exists u :: u in us && u.column == col)
          || Copies(def, col, parse, if col in row then row[col] else Null, Null))
  }

  /** The primary-key cells in the order of the definition. */
  ghost predicate IsKey(def: TableDef, row: Row, key: seq<Value>) {
    |key| == |def.primaryKey| && forall i :: 0 <= i < |key| ==>
      key[i] == if def.primaryKey[i] in row then row[def.primaryKey[i]] else Null
  }

  /** What the conversion makes of a cell is a copy of it. */
  lemma CellIsCopied(item: Item, parse: Parser, col: Column)
    ensures Copies(item.def, col, parse, if col in item.row then item.row[col] else Null, Convert(item, parse, col))
  {
  }

  lemma RowIsCopied(item: Item, parse: Parser)
    ensures RowCopied(item.def, item.columns, parse, item.row, DirectRow(item, parse))
    ensures RowHeldBack(item.def, item.columns, parse, item.row, InsertedRow(item, parse))
    ensures LocOf(item).table == item.def.name && IsKey(item.def, item.row, LocOf(item).key)
  {
    forall col | col in item.columns
      ensures Copies(item.def, col, parse, if col in item.row then item.row[col] else Null, Convert(item, parse, col))
    {
      CellIsCopied(item, parse, col);
    }
  }

  /** The updates held back are exactly those for the circular foreign keys whose copy is not NULL. */
  lemma UpdatesAreOwed(item: Item, parse: Parser)
    ensures UpdatesFor(item.def, item.columns, parse, item.row, Deferred(item, parse))
  {
    DeferredHaveLoc(item, parse, |item.columns|);
    RowIsCopied(item, parse);
    forall u | u in Deferred(item, parse) ensures UpdateFor(item.def, item.columns, parse, item.row, u) {
      assert item.columns[..|item.columns|] == item.columns;
      CellIsCopied(item, parse, u.column);
    }
    forall i | 0 <= i < |item.columns| && Defers(item, parse, item.columns[i])
      ensures Update(LocOf(item), item.columns[i], Convert(item, parse, item.columns[i])) in Deferred(item, parse)
    {
      EachIsDeferred(item, parse, |item.columns|, i);
    }
    forall col | col in item.columns && col in item.def.circularFkCols && forall u :: u in Deferred(item, parse) ==> u.column != col
      ensures Copies(item.def, col, parse, if col in item.row then item.row[col] else Null, Null)
    {
      CellIsCopied(item, parse, col);
      var i :| 0 <= i < |item.columns| && item.columns[i] == col;
      assert !Defers(item, parse, item.columns[i]);
    }
  }

  lemma {:induction false} EachIsDeferred(item: Item, parse: Parser, n: nat, i: nat)
    requires i < n <= |item.columns| && Defers(item, parse, item.columns[i])
    ensures Update(LocOf(item), item.columns[i], Convert(item, parse, item.columns[i])) in DeferredFrom(item, parse, n)
  {
    if i < n - 1 { EachIsDeferred(item, parse, n - 1, i); }
  }

  // ---------------------------------------------------------------- the whole target

  lemma {:induction false} CopyHoldsRow(db: Db, items: seq<Item>, parse: Parser, i: nat)
    requires PlainKeys(items) && UniqueKeys(db, Locs(Entries(items, parse))) && i < |items|
    ensures var copy := DirectCopy(db, items, parse);
            LocOf(items[i]) in copy && RowCopied(items[i].def, items[i].columns, parse, items[i].row, copy[LocOf(items[i])])
  {
    InsertAllIff(db, Entries(items, parse));
    KeysAreKept(db, items, parse);
    EveryRowArrives(db, items, parse, i);
    RowIsCopied(items[i], parse);
  }

  /** The source's keys are fit to be copied: complete, with all their columns on both sides, new and pairwise different. */
  ghost predicate KeysAreFit(db: Db, items: seq<Item>) {
    && (forall i :: 0 <= i < |items| ==> KeyIsComplete(items[i]) && LocOf(items[i]) !in db)
    && (forall i, j :: 0 <= i < j < |items| ==> LocOf(items[i]) != LocOf(items[j]))
  }

  ghost predicate KeyIsComplete(item: Item) {
    forall k :: k in item.def.primaryKey ==> k in item.columns && k in item.row && item.row[k] != Null
  }

  lemma CompleteIff(item: Item, parse: Parser)
    requires PlainKey(item.def)
    ensures Null !in KeyOf(item.def, InsertedRow(item, parse)).key <==> KeyIsComplete(item)
  {
    var pk, row := item.def.primaryKey, InsertedRow(item, parse);
    var key := KeyOf(item.def, row).key;
    forall i | 0 <= i < |pk| ensures key[i] == Null <==> !(pk[i] in item.columns && pk[i] in item.row && item.row[pk[i]] != Null) {
      assert pk[i] in pk && key[i] == Get(row, pk[i]);
    }
    assert Null in key <==> exists i :: 0 <= i < |pk| && key[i] == Null;
  }

  /** When the copy succeeds, by the source's keys: nothing else can stop it. */
  lemma {:induction false} KeysDecide(db: Db, items: seq<Item>, parse: Parser)
    requires PlainKeys(items)
    ensures UniqueKeys(db, Locs(Entries(items, parse))) <==> KeysAreFit(db, items)
  {
    var entries := Entries(items, parse);
    var locs := Locs(entries);
    forall i | 0 <= i < |items| ensures Null !in locs[i].key <==> KeyIsComplete(items[i]) {
      CompleteIff(items[i], parse);
    }
    forall i | 0 <= i < |items| && Null !in locs[i].key ensures locs[i] == LocOf(items[i]) {
      KeyIsKept(items[i], parse);
    }
    if UniqueKeys(db, locs) {
      forall i | 0 <= i < |items| ensures KeyIsComplete(items[i]) && LocOf(items[i]) !in db && locs[i] == LocOf(items[i]) {
        assert locs[i] in locs;
      }
    }
    if KeysAreFit(db, items) {
      forall l | l in locs ensures Accepts(db, l) {
        var i :| 0 <= i < |locs| && locs[i] == l;
        assert KeyIsComplete(items[i]);
      }
      forall i, j | 0 <= i < j < |locs| ensures locs[i] != locs[j] {
        assert KeyIsComplete(items[i]) && KeyIsComplete(items[j]);
      }
    }
  }
}
