/**
 * The comparison of the two database schemas: which differences it reports, that it reports all of them, and that
 * "no drift" means the schemas have one and the same dialect-free form.
 */
module SchemaDrift {
  import opened Common

  // ---------------------------------------------------------------- finding the matching delimiter

  function Delta(ch: char, open: char, close: char): int {
    if ch == open then 1 else if ch == close then -1 else 0
  }

  /** How much deeper the nesting is after `s`. */
  function Nesting(s: string, open: char, close: char): int {
    if s == "" then 0 else Nesting(s[..|s| - 1], open, close) + Delta(s[|s| - 1], open, close)
  }

  /** The first position at which the delimiter opened just before `start` is closed, or the end. */
  ghost predicate IsMatchingClose(content: string, start: nat, open: char, close: char, r: nat) {
    if start > |content| then r == start
    else
      && start <= r <= |content|
      && (forall k :: start <= k < r ==> Nesting(content[start..k], open, close) > -1)
      && (r < |content| ==> Nesting(content[start..r], open, close) == -1)
  }

  method FindMatchingClose(content: string, startIdx: nat, open: char, close: char) returns (i: nat)
    ensures IsMatchingClose(content, startIdx, open, close, i)
  {
    var depth := 1;
    i := startIdx;
    while i < |content| && depth > 0
      invariant startIdx <= |content| ==> startIdx <= i <= |content| && depth == 1 + Nesting(content[startIdx..i], open, close)
      invariant startIdx > |content| ==> i == startIdx
      invariant depth >= 0
      invariant i <= |content| ==> forall k :: startIdx <= k < i ==> Nesting(content[startIdx..k], open, close) > -1
    {
      assert content[startIdx..i + 1][..i - startIdx] == content[startIdx..i];
      if content[i] == open {
        depth := depth + 1;
      } else if content[i] == close {
        depth := depth - 1;
      }
      i := i + 1;
    }
  }

  /** Properly nested text. */
  datatype Nest = End | Plain(ch: char, more: Nest) | Group(inside: Nest, more: Nest)

  predicate Fits(n: Nest, open: char, close: char) {
    match n
    case End => true
    case Plain(ch, more) => ch != open && ch != close && Fits(more, open, close)
    case Group(inside, more) => Fits(inside, open, close) && Fits(more, open, close)
  }

  function Render(n: Nest, open: char, close: char): string {
    match n
    case End => ""
    case Plain(ch, more) => [ch] + Render(more, open, close)
    case Group(inside, more) => [open] + Render(inside, open, close) + [close] + Render(more, open, close)
  }

  lemma {:induction false} NestingConcat(a: string, b: string, open: char, close: char)
    ensures Nesting(a + b, open, close) == Nesting(a, open, close) + Nesting(b, open, close)
  {
    if b == "" {
      assert a + b == a;
    } else {
      NestingConcat(a, b[..|b| - 1], open, close);
      assert (a + b)[..|a + b| - 1] == a + b[..|b| - 1];
    }
  }

  /** Every prefix of `s` nests at least `low` deep. */
  ghost predicate StaysAbove(s: string, open: char, close: char, low: int) {
    forall k :: 0 <= k <= |s| ==> Nesting(s[..k], open, close) >= low
  }

  lemma {:induction false} PrefixesConcat(a: string, b: string, open: char, close: char, low: int)
    requires StaysAbove(a, open, close, low) && StaysAbove(b, open, close, low - Nesting(a, open, close))
    ensures StaysAbove(a + b, open, close, low)
  {
    forall k | 0 <= k <= |a + b| ensures Nesting((a + b)[..k], open, close) >= low {
      if k <= |a| {
        assert (a + b)[..k] == a[..k];
      } else {
        assert (a + b)[..k] == a + b[..k - |a|];
        NestingConcat(a, b[..k - |a|], open, close);
      }
    }
  }

  lemma {:induction false} OneChar(ch: char, open: char, close: char)
    ensures Nesting([ch], open, close) == Delta(ch, open, close)
    ensures forall low :: low <= 0 && low <= Delta(ch, open, close) ==> StaysAbove([ch], open, close, low)
  {
    assert [ch][..0] == "" && [ch][..1] == [ch];
  }

  lemma {:induction false} RenderIsBalanced(n: Nest, open: char, close: char)
    requires Fits(n, open, close) && open != close
    ensures Nesting(Render(n, open, close), open, close) == 0 && StaysAbove(Render(n, open, close), open, close, 0)
  {
    match n
    case End =>
      assert ""[..0] == "";
    case Plain(ch, more) =>
      RenderIsBalanced(more, open, close);
      OneChar(ch, open, close);
      NestingConcat([ch], Render(more, open, close), open, close);
      PrefixesConcat([ch], Render(more, open, close), open, close, 0);
    case Group(inside, more) =>
      RenderIsBalanced(inside, open, close);
      RenderIsBalanced(more, open, close);
      var a, b, c := [open], Render(inside, open, close), Render(more, open, close);
      OneChar(open, open, close);
      OneChar(close, open, close);
      NestingConcat(a, b, open, close);
      NestingConcat(a + b, [close], open, close);
      NestingConcat(a + b + [close], c, open, close);
      assert StaysAbove(b, open, close, -1);
      PrefixesConcat(a, b, open, close, 0);
      PrefixesConcat(a + b, [close], open, close, 0);
      PrefixesConcat(a + b + [close], c, open, close, 0);
  }

  /** In front of its close, balanced text never falls below its start; at the close it does. */
  lemma {:induction false} InsideAndClose(text: string, open: char, close: char)
    requires open != close && Nesting(text, open, close) == 0 && StaysAbove(text, open, close, 0)
    ensures forall k :: 0 <= k <= |text| ==> Nesting((text + [close])[..k], open, close) > -1
    ensures Nesting(text + [close], open, close) == -1
  {
    NestingConcat(text, [close], open, close);
    OneChar(close, open, close);
    forall k | 0 <= k <= |text| ensures Nesting((text + [close])[..k], open, close) > -1 {
      assert (text + [close])[..k] == text[..k];
    }
  }

  lemma {:induction false} CloseOfBalanced(content: string, start: nat, text: string, open: char, close: char, r: nat)
    requires open != close && Nesting(text, open, close) == 0 && StaysAbove(text, open, close, 0)
    requires start + |text| + 1 <= |content| && content[start..start + |text| + 1] == text + [close]
    requires IsMatchingClose(content, start, open, close, r)
    ensures r == start + |text| + 1
  {
    var closed, stop := text + [close], start + |text| + 1;
    InsideAndClose(text, open, close);
    forall k | start <= k < stop ensures Nesting(content[start..k], open, close) > -1 {
      assert content[start..k] == closed[..k - start];
    }
    assert Nesting(content[start..stop], open, close) == -1;
  }

  /** Cutting a table body at the matching close gives back exactly the body that was written. */
  lemma {:induction false} BodyIsExact(prefix: string, body: Nest, rest: string, open: char, close: char, r: nat)
    requires open != close && Fits(body, open, close)
    requires IsMatchingClose(prefix + Render(body, open, close) + [close] + rest, |prefix|, open, close, r)
    ensures r == |prefix| + |Render(body, open, close)| + 1
    ensures (prefix + Render(body, open, close) + [close] + rest)[|prefix|..r - 1] == Render(body, open, close)
  {
    var text := Render(body, open, close);
    RenderIsBalanced(body, open, close);
    var content, start := prefix + text + [close] + rest, |prefix|;
    assert content[start..start + |text| + 1] == text + [close];
    CloseOfBalanced(content, start, text, open, close, r);
    assert content[start..r - 1] == text;
  }

  // ---------------------------------------------------------------- type tokens

  const TYPE_COMPAT: map<string, set<string>> := map[
    "text-json" := {"text-json"},
    "integer-boolean" := {"integer-boolean"},
    "text-timestamp" := {"text-timestamp", "text"},
    "integer-timestamp_ms" := {"integer-timestamp_ms", "integer"},
    "integer" := {"integer", "integer-timestamp_ms"},
    "text" := {"text", "text-timestamp"},
    "real" := {"real"},
    "blob" := {"blob"},
    "unknown" := {"unknown"}
  ]

  predicate TypesCompatible(sqliteToken: string, pgToken: string) {
    || sqliteToken == pgToken
    || (sqliteToken in TYPE_COMPAT && pgToken in TYPE_COMPAT[sqliteToken])
    || (pgToken in TYPE_COMPAT && sqliteToken in TYPE_COMPAT[pgToken])
  }

  /** One representative for the tokens that count as the same type. */
  function TypeClass(token: string): string {
    if token == "text-timestamp" then "text" else if token == "integer-timestamp_ms" then "integer" else token
  }

  /** Compatibility is no more than having the same class, so it is an equivalence although the table is one-sided. */
  lemma CompatibleIffSameClass(a: string, b: string)
    ensures TypesCompatible(a, b) <==> TypeClass(a) == TypeClass(b)
  {
    assert |"text-timestamp"| == 14 && |"integer-timestamp_ms"| == 20 && |"integer"| == 7 && |"text"| == 4;
  }

  // ---------------------------------------------------------------- schemas

  datatype ColumnInfo = ColumnInfo(dbColumnName: string, typeToken: string, onDelete: Option<string>)

  type Table = map<string, ColumnInfo>

  datatype IndexInfo = IndexInfo(name: string, columns: string)

  datatype Schema = Schema(tables: map<string, Table>, indexes: map<string, seq<IndexInfo>>)

  datatype Side = InSqlite | InPostgres

  datatype Warning =
    | TableMissing(table: string, only: Side)
    | ColumnMissing(table: string, column: string, only: Side)
    | OnDeleteMismatch(table: string, column: string)
    | TypeDrift(table: string, column: string)
    | IndexMissing(table: string, index: string, only: Side)
    | IndexMismatch(table: string, index: string)

  function IndexesOf(s: Schema, table: string): seq<IndexInfo> {
    if table in s.indexes then s.indexes[table] else []
  }

  /** Indexes by name; of two with the same name the later counts. */
  function ByName(idxs: seq<IndexInfo>): map<string, string> {
    if idxs == [] then map[] else ByName(idxs[..|idxs| - 1])[idxs[|idxs| - 1].name := idxs[|idxs| - 1].columns]
  }

  predicate OnlyIn(x: bool, y: bool, side: Side) {
    if side == InSqlite then x && !y else y && !x
  }

  predicate ColumnDrift(x: Table, y: Table, w: Warning) {
    match w
    case ColumnMissing(_, c, side) => OnlyIn(c in x, c in y, side)
    case OnDeleteMismatch(_, c) => c in x && c in y && x[c].onDelete != y[c].onDelete
    case TypeDrift(_, c) => c in x && c in y && !TypesCompatible(x[c].typeToken, y[c].typeToken)
    case _ => false
  }

  predicate IndexDrift(x: map<string, string>, y: map<string, string>, w: Warning) {
    match w
    case IndexMissing(_, n, side) => OnlyIn(n in x, n in y, side)
    case IndexMismatch(_, n) => n in x && n in y && x[n] != y[n]
    case _ => false
  }

  /** The difference a warning speaks of is there. */
  predicate IsTrue(w: Warning, a: Schema, b: Schema) {
    || (w.TableMissing? && OnlyIn(w.table in a.tables, w.table in b.tables, w.only))
    || (w.table in a.tables && w.table in b.tables && ColumnDrift(a.tables[w.table], b.tables[w.table], w))
    || IndexDrift(ByName(IndexesOf(a, w.table)), ByName(IndexesOf(b, w.table)), w)
  }

  // ---------------------------------------------------------------- the differences, written out

  /** The columns of the last index of that name on the table. */
  ghost predicate LastIndex(s: Schema, table: string, name: string, columns: string) {
    table in s.indexes &&
    exists i :: 0 <= i < |s.indexes[table]| && s.indexes[table][i] == IndexInfo(name, columns)
                && forall j :: i < j < |s.indexes[table]| ==> s.indexes[table][j].name != name
  }

  ghost predicate HasIndex(s: Schema, table: string, name: string) {
    table in s.indexes && exists i :: 0 <= i < |s.indexes[table]| && s.indexes[table][i].name == name
  }

  /** The i-th index is the last of its name. */
  ghost predicate IsLast(idxs: seq<IndexInfo>, i: int) {
    0 <= i < |idxs| && forall j :: i < j < |idxs| ==> idxs[j].name != idxs[i].name
  }

  lemma {:induction false} ByNameOfLast(idxs: seq<IndexInfo>, i: int)
    requires IsLast(idxs, i)
    ensures idxs[i].name in ByName(idxs) && ByName(idxs)[idxs[i].name] == idxs[i].columns
  {
    var k := |idxs| - 1;
    if i < k {
      assert forall j :: 0 <= j < k ==> idxs[..k][j] == idxs[j];
      ByNameOfLast(idxs[..k], i);
    }
  }

  lemma {:induction false} FindLast(idxs: seq<IndexInfo>, i: int) returns (k: int)
    requires 0 <= i < |idxs|
    ensures IsLast(idxs, k) && idxs[k].name == idxs[i].name
    decreases |idxs| - i
  {
    k := i;
    if j :| i < j < |idxs| && idxs[j].name == idxs[i].name {
      k := FindLast(idxs, j);
    }
  }

  lemma {:induction false} ByNameFound(idxs: seq<IndexInfo>, n: string) returns (i: int)
    requires n in ByName(idxs)
    ensures IsLast(idxs, i) && idxs[i].name == n
  {
    NamesOf(idxs, n);
    i :| 0 <= i < |idxs| && idxs[i].name == n;
    i := FindLast(idxs, i);
  }

  lemma HasIndexIff(s: Schema, table: string, n: string)
    ensures n in ByName(IndexesOf(s, table)) <==> HasIndex(s, table, n)
  {
    NamesOf(IndexesOf(s, table), n);
  }

  lemma LastIndexIff(s: Schema, table: string, n: string, columns: string)
    ensures LastIndex(s, table, n, columns) <==> n in ByName(IndexesOf(s, table)) && ByName(IndexesOf(s, table))[n] == columns
  {
    var idxs := IndexesOf(s, table);
    if n in ByName(idxs) {
      var i := ByNameFound(idxs, n);
      ByNameOfLast(idxs, i);
      assert idxs[i] == IndexInfo(n, ByName(idxs)[n]);
    }
    if LastIndex(s, table, n, columns) {
      var i :| 0 <= i < |idxs| && idxs[i] == IndexInfo(n, columns) && forall j :: i < j < |idxs| ==> idxs[j].name != n;
      assert IsLast(idxs, i);
      ByNameOfLast(idxs, i);
    }
  }

  /** What the warnings about tables and columns say, in terms of the two schemas alone. */
  lemma ColumnWarningsMean(a: Schema, b: Schema, table: string, name: string)
    ensures IsTrue(TableMissing(table, InSqlite), a, b) <==> table in a.tables && table !in b.tables
    ensures IsTrue(TableMissing(table, InPostgres), a, b) <==> table !in a.tables && table in b.tables
    ensures IsTrue(ColumnMissing(table, name, InSqlite), a, b)
            <==> table in a.tables && table in b.tables && name in a.tables[table] && name !in b.tables[table]
    ensures IsTrue(ColumnMissing(table, name, InPostgres), a, b)
            <==> table in a.tables && table in b.tables && name !in a.tables[table] && name in b.tables[table]
    ensures IsTrue(OnDeleteMismatch(table, name), a, b)
            <==> (table in a.tables && table in b.tables && name in a.tables[table] && name in b.tables[table]
                  && a.tables[table][name].onDelete != b.tables[table][name].onDelete)
    ensures IsTrue(TypeDrift(table, name), a, b)
            <==> (table in a.tables && table in b.tables && name in a.tables[table] && name in b.tables[table]
                  && TypeClass(a.tables[table][name].typeToken) != TypeClass(b.tables[table][name].typeToken))
  {
    if table in a.tables && table in b.tables && name in a.tables[table] && name in b.tables[table] {
      CompatibleIffSameClass(a.tables[table][name].typeToken, b.tables[table][name].typeToken);
    }
  }

  /** And those about indexes: of several of one name the last counts. */
  lemma IndexWarningsMean(a: Schema, b: Schema, table: string, name: string)
    ensures IsTrue(IndexMissing(table, name, InSqlite), a, b) <==> HasIndex(a, table, name) && !HasIndex(b, table, name)
    ensures IsTrue(IndexMissing(table, name, InPostgres), a, b) <==> !HasIndex(a, table, name) && HasIndex(b, table, name)
    ensures IsTrue(IndexMismatch(table, name), a, b)
            <==> exists p, q :: LastIndex(a, table, name, p) && LastIndex(b, table, name, q) && p != q
  {
    HasIndexIff(a, table, name);
    HasIndexIff(b, table, name);
    var x, y := ByName(IndexesOf(a, table)), ByName(IndexesOf(b, table));
    if name in x && name in y {
      LastIndexIff(a, table, name, x[name]);
      LastIndexIff(b, table, name, y[name]);
    }
    forall p, q | LastIndex(a, table, name, p) && LastIndex(b, table, name, q)
      ensures name in x && name in y && x[name] == p && y[name] == q
    {
      LastIndexIff(a, table, name, p);
      LastIndexIff(b, table, name, q);
    }
  }

  // ---------------------------------------------------------------- the dialect-free form

  datatype Canonical = Canonical(tables: map<string, map<string, (string, Option<string>)>>, indexes: map<string, map<string, string>>)

  function CanonicalTable(t: Table): map<string, (string, Option<string>)> {
    map c | c in t :: (TypeClass(t[c].typeToken), t[c].onDelete)
  }

  /** Database column names, declaration order, and tables without indexes leave no trace. */
  function Canon(s: Schema): Canonical {
    Canonical(map t | t in s.tables :: CanonicalTable(s.tables[t]),
              map t | t in s.indexes && ByName(s.indexes[t]) != map[] :: ByName(s.indexes[t]))
  }

  lemma ColumnsAgreeIff(x: Table, y: Table, table: string)
    ensures (forall w: Warning :: w.table == table ==> !ColumnDrift(x, y, w)) <==> CanonicalTable(x) == CanonicalTable(y)
  {
    var p, q := CanonicalTable(x), CanonicalTable(y);
    if forall w: Warning :: w.table == table ==> !ColumnDrift(x, y, w) {
      forall c ensures c in p <==> c in q {
        assert !ColumnDrift(x, y, ColumnMissing(table, c, InSqlite)) && !ColumnDrift(x, y, ColumnMissing(table, c, InPostgres));
      }
      forall c | c in p ensures p[c] == q[c] {
        assert c in q;
        assert !ColumnDrift(x, y, OnDeleteMismatch(table, c)) && !ColumnDrift(x, y, TypeDrift(table, c));
        CompatibleIffSameClass(x[c].typeToken, y[c].typeToken);
      }
      assert p == q;
    }
    if p == q {
      forall w: Warning | w.table == table ensures !ColumnDrift(x, y, w) {
        SameColumnsNoDrift(x, y, w);
      }
    }
  }

  lemma SameColumnsNoDrift(x: Table, y: Table, w: Warning)
    requires CanonicalTable(x) == CanonicalTable(y)
    ensures !ColumnDrift(x, y, w)
  {
    assert forall c :: c in x <==> c in CanonicalTable(x);
    assert forall c :: c in y <==> c in CanonicalTable(y);
    if (w.OnDeleteMismatch? || w.TypeDrift?) && w.column in x {
      assert CanonicalTable(x)[w.column] == CanonicalTable(y)[w.column];
      CompatibleIffSameClass(x[w.column].typeToken, y[w.column].typeToken);
    }
  }

  lemma IndexesAgreeIff(x: map<string, string>, y: map<string, string>, table: string)
    ensures (forall w: Warning :: w.table == table ==> !IndexDrift(x, y, w)) <==> x == y
  {
    if forall w: Warning :: w.table == table ==> !IndexDrift(x, y, w) {
      forall n ensures n in x <==> n in y {
        assert !IndexDrift(x, y, IndexMissing(table, n, InSqlite)) && !IndexDrift(x, y, IndexMissing(table, n, InPostgres));
      }
      forall n | n in x ensures x[n] == y[n] {
        assert !IndexDrift(x, y, IndexMismatch(table, n));
      }
      assert x == y;
    }
  }

  ghost predicate DriftFree(a: Schema, b: Schema) {
    forall w :: !IsTrue(w, a, b)
  }

  lemma CanonIndexes(a: Schema, b: Schema)
    ensures Canon(a).indexes == Canon(b).indexes <==> forall t :: ByName(IndexesOf(a, t)) == ByName(IndexesOf(b, t))
  {
    var p, q := Canon(a).indexes, Canon(b).indexes;
    forall t ensures ByName(IndexesOf(a, t)) == if t in p then p[t] else map[] {
    }
    forall t ensures ByName(IndexesOf(b, t)) == if t in q then q[t] else map[] {
    }
    if forall t :: ByName(IndexesOf(a, t)) == ByName(IndexesOf(b, t)) {
      forall t ensures (t in p <==> t in q) && (t in p ==> p[t] == q[t]) {
        assert ByName(IndexesOf(a, t)) == ByName(IndexesOf(b, t));
      }
      assert p == q;
    }
  }

  lemma CanonTables(a: Schema, b: Schema)
    ensures Canon(a).tables == Canon(b).tables
            <==> a.tables.Keys == b.tables.Keys && forall t :: t in a.tables && t in b.tables ==> CanonicalTable(a.tables[t]) == CanonicalTable(b.tables[t])
  {
    var p, q := Canon(a).tables, Canon(b).tables;
    assert p.Keys == a.tables.Keys && q.Keys == b.tables.Keys;
    if p == q {
      forall t | t in a.tables && t in b.tables ensures CanonicalTable(a.tables[t]) == CanonicalTable(b.tables[t]) {
        assert p[t] == q[t];
      }
    }
  }

  /** No warning is true exactly when both schemas have the same dialect-free form. */
  lemma DriftFreeIff(a: Schema, b: Schema)
    ensures DriftFree(a, b) <==> Canon(a) == Canon(b)
  {
    CanonIndexes(a, b);
    CanonTables(a, b);
    if DriftFree(a, b) {
      forall t ensures t in a.tables <==> t in b.tables {
        assert !IsTrue(TableMissing(t, InSqlite), a, b) && !IsTrue(TableMissing(t, InPostgres), a, b);
      }
      forall t | t in a.tables && t in b.tables ensures CanonicalTable(a.tables[t]) == CanonicalTable(b.tables[t]) {
        forall w: Warning | w.table == t ensures !ColumnDrift(a.tables[t], b.tables[t], w) {
          assert !IsTrue(w, a, b);
        }
        ColumnsAgreeIff(a.tables[t], b.tables[t], t);
      }
      forall t ensures ByName(IndexesOf(a, t)) == ByName(IndexesOf(b, t)) {
        forall w: Warning | w.table == t ensures !IndexDrift(ByName(IndexesOf(a, t)), ByName(IndexesOf(b, t)), w) {
          assert !IsTrue(w, a, b);
        }
        IndexesAgreeIff(ByName(IndexesOf(a, t)), ByName(IndexesOf(b, t)), t);
      }
    }
    if Canon(a) == Canon(b) {
      forall w ensures !IsTrue(w, a, b) {
        if w.table in a.tables {
          SameColumnsNoDrift(a.tables[w.table], b.tables[w.table], w);
        }
        IndexesAgreeIff(ByName(IndexesOf(a, w.table)), ByName(IndexesOf(b, w.table)), w.table);
      }
    }
  }

  /** So being free of drift is an equivalence. */
  lemma DriftFreeIsEquivalence(a: Schema, b: Schema, c: Schema)
    ensures DriftFree(a, a)
    ensures DriftFree(a, b) <==> DriftFree(b, a)
    ensures DriftFree(a, b) && DriftFree(b, c) ==> DriftFree(a, c)
  {
    DriftFreeIff(a, a);
    DriftFreeIff(a, b);
    DriftFreeIff(b, a);
    DriftFreeIff(b, c);
    DriftFreeIff(a, c);
  }

  // ---------------------------------------------------------------- the comparison

  method CompareTableNames(a: Schema, b: Schema) returns (drift: bool, ws: seq<Warning>)
    ensures drift <==> ws != []
    ensures forall w :: w in ws <==> w.TableMissing? && OnlyIn(w.table in a.tables, w.table in b.tables, w.only)
  {
    drift, ws := false, [];
    var todo := a.tables.Keys;
    while todo != {}
      invariant todo <= a.tables.Keys && (drift <==> ws != [])
      invariant forall w :: w in ws <==> w.TableMissing? && w.only == InSqlite && w.table in a.tables.Keys - todo && w.table !in b.tables
    {
      var name :| name in todo;
      todo := todo - {name};
      if name !in b.tables {
        drift, ws := true, ws + [TableMissing(name, InSqlite)];
      }
    }
    todo := b.tables.Keys;
    ghost var before := ws;
    while todo != {}
      invariant todo <= b.tables.Keys && (drift <==> ws != [])
      invariant forall w :: w in ws <==>
                  w in before || (w.TableMissing? && w.only == InPostgres && w.table in b.tables.Keys - todo && w.table !in a.tables)
    {
      var name :| name in todo;
      todo := todo - {name};
      if name !in a.tables {
        drift, ws := true, ws + [TableMissing(name, InPostgres)];
      }
    }
  }

  method CompareColumnNames(table: string, x: Table, y: Table) returns (drift: bool, ws: seq<Warning>)
    ensures drift <==> ws != []
    ensures forall w :: w in ws <==> w.table == table && w.ColumnMissing? && ColumnDrift(x, y, w)
  {
    drift, ws := false, [];
    var todo := x.Keys;
    while todo != {}
      invariant todo <= x.Keys && (drift <==> ws != [])
      invariant forall w :: w in ws <==> w.table == table && w.ColumnMissing? && w.only == InSqlite && w.column in x.Keys - todo && w.column !in y
    {
      var c :| c in todo;
      todo := todo - {c};
      if c !in y {
        drift, ws := true, ws + [ColumnMissing(table, c, InSqlite)];
      }
    }
    todo := y.Keys;
    ghost var before := ws;
    while todo != {}
      invariant todo <= y.Keys && (drift <==> ws != [])
      invariant forall w :: w in ws <==>
                  w in before || (w.table == table && w.ColumnMissing? && w.only == InPostgres && w.column in y.Keys - todo && w.column !in x)
    {
      var c :| c in todo;
      todo := todo - {c};
      if c !in x {
        drift, ws := true, ws + [ColumnMissing(table, c, InPostgres)];
      }
    }
  }

  method CompareColumns(table: string, x: Table, y: Table) returns (drift: bool, ws: seq<Warning>)
    ensures drift <==> ws != []
    ensures forall w :: w in ws <==> w.table == table && ColumnDrift(x, y, w)
  {
    drift, ws := CompareColumnNames(table, x, y);
    ghost var before := ws;
    var todo := x.Keys;
    while todo != {}
      invariant todo <= x.Keys && (drift <==> ws != [])
      invariant forall w :: w in ws <==>
                  w in before || (w.table == table && (w.OnDeleteMismatch? || w.TypeDrift?) && w.column !in todo && ColumnDrift(x, y, w))
    {
      var c :| c in todo;
      todo := todo - {c};
      if c in y {
        if x[c].onDelete != y[c].onDelete {
          drift, ws := true, ws + [OnDeleteMismatch(table, c)];
        }
        if !TypesCompatible(x[c].typeToken, y[c].typeToken) {
          drift, ws := true, ws + [TypeDrift(table, c)];
        }
      }
    }
  }

  lemma {:induction false} NamesOf(idxs: seq<IndexInfo>, n: string)
    ensures n in ByName(idxs) <==> exists i :: 0 <= i < |idxs| && idxs[i].name == n
  {
    if idxs != [] {
      var k := |idxs| - 1;
      NamesOf(idxs[..k], n);
      assert forall i :: 0 <= i < k ==> idxs[..k][i] == idxs[i];
    }
  }

  /** The indexes that are listed on one side and named on it alone. */
  method MissingIndexes(table: string, idxs: seq<IndexInfo>, other: map<string, string>, side: Side) returns (ws: seq<Warning>)
    ensures forall w :: w in ws <==> w.IndexMissing? && w.table == table && w.only == side && w.index in ByName(idxs) && w.index !in other
  {
    ws := [];
    var i := 0;
    while i < |idxs|
      invariant i <= |idxs|
      invariant forall w :: w in ws <==>
                  w.IndexMissing? && w.table == table && w.only == side && w.index in ByName(idxs[..i]) && w.index !in other
    {
      assert idxs[..i + 1][..i] == idxs[..i];
      if idxs[i].name !in other {
        ws := ws + [IndexMissing(table, idxs[i].name, side)];
      }
      i := i + 1;
    }
    assert idxs[..|idxs|] == idxs;
  }

  method CompareIndexes(table: string, xs: seq<IndexInfo>, ys: seq<IndexInfo>) returns (drift: bool, ws: seq<Warning>)
    ensures drift <==> ws != []
    ensures forall w :: w in ws <==> w.table == table && IndexDrift(ByName(xs), ByName(ys), w)
  {
    var x, y := ByName(xs), ByName(ys);
    var onlyX := MissingIndexes(table, xs, y, InSqlite);
    var onlyY := MissingIndexes(table, ys, x, InPostgres);
    ws := onlyX + onlyY;
    drift := ws != [];
    ghost var before := ws;
    var todo := x.Keys;
    while todo != {}
      invariant todo <= x.Keys && (drift <==> ws != [])
      invariant forall w :: w in ws <==>
                  w in before || (w.table == table && w.IndexMismatch? && w.index !in todo && IndexDrift(x, y, w))
    {
      var n :| n in todo;
      todo := todo - {n};
      if n in y && x[n] != y[n] {
        drift, ws := true, ws + [IndexMismatch(table, n)];
      }
    }
  }

  /** The answer is "drift" exactly when warnings were added, and the warnings are exactly the differences. */
  method CompareSchemas(sqlite: Schema, postgres: Schema, warnings: seq<Warning>) returns (drift: bool, warnings': seq<Warning>)
    ensures warnings <= warnings'
    ensures drift <==> |warnings'| > |warnings|
    ensures drift <==> Canon(sqlite) != Canon(postgres)
    ensures forall w :: w in warnings'[|warnings|..] <==> IsTrue(w, sqlite, postgres)
  {
    var ws;
    drift, ws := CompareTableNames(sqlite, postgres);
    ghost var first := ws;
    var todo := sqlite.tables.Keys;
    while todo != {}
      invariant todo <= sqlite.tables.Keys && (drift <==> ws != [])
      invariant forall w :: w in ws <==>
                  w in first || (w.table in sqlite.tables && w.table !in todo && w.table in postgres.tables
                                 && ColumnDrift(sqlite.tables[w.table], postgres.tables[w.table], w))
    {
      var t :| t in todo;
      todo := todo - {t};
      if t in postgres.tables {
        var more, added := CompareColumns(t, sqlite.tables[t], postgres.tables[t]);
        drift, ws := drift || more, ws + added;
      }
    }
    ghost var second := ws;
    todo := sqlite.indexes.Keys + postgres.indexes.Keys;
    while todo != {}
      invariant todo <= sqlite.indexes.Keys + postgres.indexes.Keys && (drift <==> ws != [])
      invariant forall w :: w in ws <==>
                  w in second || (w.table in sqlite.indexes.Keys + postgres.indexes.Keys && w.table !in todo
                                  && IndexDrift(ByName(IndexesOf(sqlite, w.table)), ByName(IndexesOf(postgres, w.table)), w))
    {
      var t :| t in todo;
      todo := todo - {t};
      var more, added := CompareIndexes(t, IndexesOf(sqlite, t), IndexesOf(postgres, t));
      drift, ws := drift || more, ws + added;
    }
    warnings' := warnings + ws;
    assert warnings'[|warnings|..] == ws;
    forall w ensures w in ws <==> IsTrue(w, sqlite, postgres) {
      if w.table !in sqlite.indexes.Keys + postgres.indexes.Keys {
        assert !IndexDrift(ByName(IndexesOf(sqlite, w.table)), ByName(IndexesOf(postgres, w.table)), w);
      }
    }
    DriftFreeIff(sqlite, postgres);
    if ws != [] {
      assert ws[0] in ws;
    }
  }
}
