/** Assembling a schema manifest from metadata rows that arrive in any order. */
module SchemaBuild {
  import opened Statuses
  import opened Sorting
  import opened JsonTree
  import opened SchemaManifest

  datatype TableRow = TableRow(table: string, engine: string, collation: string)
  datatype ColumnRow = ColumnRow(table: string, name: string, spec: ColumnSpec)
  datatype TriggerRow = TriggerRow(name: string, spec: TriggerSpec)

  /** One part of an index or foreign key. */
  datatype PartRow<H, P> = PartRow(table: string, name: string, head: H, pos: int, part: P)

  datatype Rows = Rows(tables: seq<TableRow>, columns: seq<ColumnRow>, indexes: seq<PartRow<IndexHead, string>>,
                       foreignKeys: seq<PartRow<ForeignHead, ForeignPart>>, triggers: seq<TriggerRow>)

  datatype Placed<P> = Placed(pos: int, part: P)
  datatype Open<H, P> = Open(head: H, parts: seq<Placed<P>>)

  // ---------------------------------------------------------------- what each table collects

  /** The last row of a table decides its engine and collation. */
  function TablesOf(rows: seq<TableRow>): map<string, TableRow> {
    if rows == [] then map[] else TablesOf(rows[..|rows| - 1])[rows[|rows| - 1].table := rows[|rows| - 1]]
  }

  function ColumnsOf(rows: seq<ColumnRow>, t: string): map<string, ColumnSpec> {
    if rows == [] then map[]
    else
      var r, prior := rows[|rows| - 1], ColumnsOf(rows[..|rows| - 1], t);
      if r.table == t then prior[r.name := r.spec] else prior
  }

  function TriggersOf(rows: seq<TriggerRow>): map<string, TriggerSpec> {
    if rows == [] then map[] else TriggersOf(rows[..|rows| - 1])[rows[|rows| - 1].name := rows[|rows| - 1].spec]
  }

  /** The first row of a group opens it with its head; later rows add parts. */
  function Extend<H, P>(groups: map<string, Open<H, P>>, r: PartRow<H, P>): map<string, Open<H, P>> {
    var p := Placed(r.pos, r.part);
    if r.name in groups then groups[r.name := groups[r.name].(parts := groups[r.name].parts + [p])]
    else groups[r.name := Open(r.head, [p])]
  }

  function GroupsOf<H, P>(rows: seq<PartRow<H, P>>, t: string): map<string, Open<H, P>> {
    if rows == [] then map[]
    else
      var r, prior := rows[|rows| - 1], GroupsOf(rows[..|rows| - 1], t);
      if r.table == t then Extend(prior, r) else prior
  }

  predicate ByPosition<P>(a: Placed<P>, b: Placed<P>) {
    a.pos <= b.pos
  }

  function PartsIn<P>(s: seq<Placed<P>>): seq<P> {
    seq(|s|, i requires 0 <= i < |s| => s[i].part)
  }

  function Close<H, P>(o: Open<H, P>): Grouped<H, P> {
    Grouped(o.head, PartsIn(Sort(o.parts, (a, b) => ByPosition(a, b))))
  }

  function CloseAll<H, P>(groups: map<string, Open<H, P>>): map<string, Grouped<H, P>> {
    map n | n in groups :: Close(groups[n])
  }

  function TableOf(rows: Rows, r: TableRow): TableSpec {
    TableSpec(r.engine, r.collation, ColumnsOf(rows.columns, r.table),
              CloseAll(GroupsOf(rows.indexes, r.table)), CloseAll(GroupsOf(rows.foreignKeys, r.table)))
  }

  function Build(rows: Rows, migrations: Option<seq<string>>, allowed: seq<string>): Manifest {
    var tables := TablesOf(rows.tables);
    Manifest(if migrations.None? then [] else migrations.value, SortStrings(allowed),
             map t | t in tables :: TableOf(rows, tables[t]), TriggersOf(rows.triggers))
  }

  // ---------------------------------------------------------------- the order of the records

  /** Keys of a Map in insertion order: a name set again keeps its place. */
  function Noted(names: seq<string>, n: string): seq<string> {
    if n in names then names else names + [n]
  }

  function TableNames(rows: seq<TableRow>): seq<string> {
    if rows == [] then [] else Noted(TableNames(rows[..|rows| - 1]), rows[|rows| - 1].table)
  }

  function ColumnNames(rows: seq<ColumnRow>, t: string): seq<string> {
    if rows == [] then []
    else
      var r, prior := rows[|rows| - 1], ColumnNames(rows[..|rows| - 1], t);
      if r.table == t then Noted(prior, r.name) else prior
  }

  function GroupNames<H, P>(rows: seq<PartRow<H, P>>, t: string): seq<string> {
    if rows == [] then []
    else
      var r, prior := rows[|rows| - 1], GroupNames(rows[..|rows| - 1], t);
      if r.table == t then Noted(prior, r.name) else prior
  }

  function TriggerNames(rows: seq<TriggerRow>): seq<string> {
    seq(|rows|, i requires 0 <= i < |rows| => rows[i].name)
  }

  /** Object.fromEntries: properties assigned in the given order. */
  function Assigned(names: seq<string>): seq<Field> {
    if names == [] then [] else Put(Assigned(names[..|names| - 1]), names[|names| - 1], TNull)
  }

  /** sortedRecord: the record with these keys, built in sorted order; its fields in enumeration order. */
  function SortedRecord(names: seq<string>): seq<Field> {
    Assigned(SortStrings(names))
  }

  /** For every record of a manifest, its keys in enumeration order. */
  datatype Order = Order(tables: seq<Field>, inside: map<string, TableOrder>, triggers: seq<Field>)
  datatype TableOrder = TableOrder(columns: seq<Field>, indexes: seq<Field>, foreignKeys: seq<Field>)

  function TableOrderOf(rows: Rows, t: string): TableOrder {
    TableOrder(SortedRecord(ColumnNames(rows.columns, t)), SortedRecord(GroupNames(rows.indexes, t)), SortedRecord(GroupNames(rows.foreignKeys, t)))
  }

  function OrderOf(rows: Rows): Order {
    Order(SortedRecord(TableNames(rows.tables)), map t | t in TablesOf(rows.tables) :: TableOrderOf(rows, t),
          SortedRecord(TriggerNames(rows.triggers)))
  }

  lemma {:induction false} AssignedHas(names: seq<string>, k: string)
    ensures Has(Assigned(names), k) <==> k in names
  {
    if names != [] {
      var n := |names| - 1;
      AssignedHas(names[..n], k);
      assert names == names[..n] + [names[n]];
      PutHas(Assigned(names[..n]), names[n], TNull, k);
    }
  }

  lemma {:induction false} AssignedInOrder(names: seq<string>)
    requires Ordered(names, StrLeq)
    ensures InOrder(Assigned(names))
  {
    if names != [] {
      var n := |names| - 1;
      AssignedInOrder(names[..n]);
      var front := Assigned(names[..n]);
      forall i | 0 <= i < |front| ensures StrLeq(front[i].key, names[n]) {
        AssignedHas(names[..n], front[i].key);
        assert Has(front, front[i].key);
        var j :| 0 <= j < n && names[..n][j] == front[i].key;
        assert names[j] == front[i].key;
      }
      hide InOrder;
      PutKeepsOrder(front, names[n], TNull);
    }
  }

  lemma {:induction false} AssignedNulls(names: seq<string>)
    ensures forall f :: f in Assigned(names) ==> f.value == TNull
  {
    if names != [] {
      AssignedNulls(names[..|names| - 1]);
      forall f | f in Assigned(names) ensures f.value == TNull { PutMembers(Assigned(names[..|names| - 1]), names[|names| - 1], TNull, f); }
    }
  }

  /** A sorted record lists exactly its names, in enumeration order. */
  lemma {:induction false} RecordIsSorted(names: seq<string>, k: string)
    ensures InOrder(SortedRecord(names)) && (Has(SortedRecord(names), k) <==> k in names)
  {
    StringsAreOrdered();
    SortOrders(names, StrLeq);
    AssignedInOrder(SortStrings(names));
    AssignedHas(SortStrings(names), k);
    SortMembers(names, StrLeq, k);
  }

  /** So it depends on which names there are, and on nothing else. */
  lemma {:induction false} SameNamesSameRecord(a: seq<string>, b: seq<string>)
    requires forall k :: k in a <==> k in b
    ensures SortedRecord(a) == SortedRecord(b)
  {
    var x, y := SortedRecord(a), SortedRecord(b);
    RecordIsSorted(a, "");
    RecordIsSorted(b, "");
    forall k ensures Has(x, k) <==> Has(y, k) {
      RecordIsSorted(a, k);
      RecordIsSorted(b, k);
    }
    SameKeysSameOrder(x, y);
    AssignedNulls(SortStrings(a));
    AssignedNulls(SortStrings(b));
    assert forall i :: 0 <= i < |x| ==> x[i] in x && y[i] in y;
    assert x == y;
  }

  lemma {:induction false} TableNamesMembers(rows: seq<TableRow>, n: string)
    ensures n in TableNames(rows) <==> n in TablesOf(rows)
  {
    if rows != [] { TableNamesMembers(rows[..|rows| - 1], n); }
  }

  lemma {:induction false} ColumnNamesMembers(rows: seq<ColumnRow>, t: string, n: string)
    ensures n in ColumnNames(rows, t) <==> n in ColumnsOf(rows, t)
  {
    if rows != [] { ColumnNamesMembers(rows[..|rows| - 1], t, n); }
  }

  lemma {:induction false} GroupNamesMembers<H, P>(rows: seq<PartRow<H, P>>, t: string, n: string)
    ensures n in GroupNames(rows, t) <==> n in GroupsOf(rows, t)
  {
    if rows != [] { GroupNamesMembers(rows[..|rows| - 1], t, n); }
  }

  lemma {:induction false} TriggerNamesMembers(rows: seq<TriggerRow>, n: string)
    ensures n in TriggerNames(rows) <==> n in TriggersOf(rows)
  {
    if rows != [] {
      var k := |rows| - 1;
      TriggerNamesMembers(rows[..k], n);
      assert TriggerNames(rows) == TriggerNames(rows[..k]) + [rows[k].name];
    }
  }

  /** Every record of the manifest lists exactly its own keys, in enumeration order. */
  lemma {:induction false} RecordsAreSorted(rows: Rows, migrations: Option<seq<string>>, allowed: seq<string>, t: string, k: string)
    requires t in Build(rows, migrations, allowed).tables
    ensures var m, o := Build(rows, migrations, allowed), OrderOf(rows);
            && InOrder(o.tables) && (Has(o.tables, k) <==> k in m.tables)
            && InOrder(o.triggers) && (Has(o.triggers, k) <==> k in m.triggers)
            && t in o.inside && var i := o.inside[t];
            && InOrder(i.columns) && (Has(i.columns, k) <==> k in m.tables[t].columns)
            && InOrder(i.indexes) && (Has(i.indexes, k) <==> k in m.tables[t].indexes)
            && InOrder(i.foreignKeys) && (Has(i.foreignKeys, k) <==> k in m.tables[t].foreignKeys)
  {
    TablesNamed(rows.tables, t);
    TableNamesMembers(rows.tables, k);
    ColumnNamesMembers(rows.columns, t, k);
    GroupNamesMembers(rows.indexes, t, k);
    GroupNamesMembers(rows.foreignKeys, t, k);
    TriggerNamesMembers(rows.triggers, k);
    hide SortedRecord, InOrder, Has, TableNames, ColumnNames, GroupNames, TriggerNames, ColumnsOf, GroupsOf, TriggersOf;
    RecordIsSorted(TableNames(rows.tables), k);
    RecordIsSorted(ColumnNames(rows.columns, t), k);
    RecordIsSorted(GroupNames(rows.indexes, t), k);
    RecordIsSorted(GroupNames(rows.foreignKeys, t), k);
    RecordIsSorted(TriggerNames(rows.triggers), k);
  }

  // ---------------------------------------------------------------- the loops

  /** An insertion-ordered Map. */
  datatype Dict<T> = Dict(keys: seq<string>, vals: map<string, T>)

  datatype MutableTable = MutableTable(row: TableRow, columns: Dict<ColumnSpec>,
                                       indexes: Dict<Open<IndexHead, string>>, foreignKeys: Dict<Open<ForeignHead, ForeignPart>>)

  method AddTables(rows: seq<TableRow>) returns (tables: Dict<MutableTable>)
    ensures tables.keys == TableNames(rows) && tables.vals.Keys == TablesOf(rows).Keys
    ensures forall t :: t in tables.vals ==> tables.vals[t] == MutableTable(TablesOf(rows)[t], Dict([], map[]), Dict([], map[]), Dict([], map[]))
  {
    var keys: seq<string>, vals: map<string, MutableTable> := [], map[];
    for k := 0 to |rows|
      invariant keys == TableNames(rows[..k]) && vals.Keys == TablesOf(rows[..k]).Keys
      invariant forall t :: t in vals ==> vals[t] == MutableTable(TablesOf(rows[..k])[t], Dict([], map[]), Dict([], map[]), Dict([], map[]))
    {
      assert rows[..k + 1][..k] == rows[..k];
      keys := Noted(keys, rows[k].table);
      vals := vals[rows[k].table := MutableTable(rows[k], Dict([], map[]), Dict([], map[]), Dict([], map[]))];
    }
    assert rows[..|rows|] == rows;
    tables := Dict(keys, vals);
  }

  /** Rows of tables that are not listed (views) are passed over. */
  method AddColumns(tables0: map<string, MutableTable>, rows: seq<ColumnRow>) returns (tables: map<string, MutableTable>)
    requires forall t :: t in tables0 ==> tables0[t].columns == Dict([], map[])
    ensures tables.Keys == tables0.Keys
    ensures forall t :: t in tables ==> tables[t] == tables0[t].(columns := Dict(ColumnNames(rows, t), ColumnsOf(rows, t)))
  {
    tables := tables0;
    for k := 0 to |rows|
      invariant tables.Keys == tables0.Keys
      invariant forall t :: t in tables ==> tables[t] == tables0[t].(columns := Dict(ColumnNames(rows[..k], t), ColumnsOf(rows[..k], t)))
    {
      assert rows[..k + 1][..k] == rows[..k];
      var r := rows[k];
      if r.table in tables {
        var d := tables[r.table].columns;
        tables := tables[r.table := tables[r.table].(columns := Dict(Noted(d.keys, r.name), d.vals[r.name := r.spec]))];
      }
    }
    assert rows[..|rows|] == rows;
  }

  method AddIndexes(tables0: map<string, MutableTable>, rows: seq<PartRow<IndexHead, string>>) returns (tables: map<string, MutableTable>)
    requires forall t :: t in tables0 ==> tables0[t].indexes == Dict([], map[])
    ensures tables.Keys == tables0.Keys
    ensures forall t :: t in tables ==> tables[t] == tables0[t].(indexes := Dict(GroupNames(rows, t), GroupsOf(rows, t)))
  {
    hide Extend, Noted;
    tables := tables0;
    for k := 0 to |rows|
      invariant tables.Keys == tables0.Keys
      invariant forall t :: t in tables ==> tables[t] == tables0[t].(indexes := Dict(GroupNames(rows[..k], t), GroupsOf(rows[..k], t)))
    {
      assert rows[..k + 1][..k] == rows[..k];
      var r := rows[k];
      if r.table in tables {
        var d := tables[r.table].indexes;
        tables := tables[r.table := tables[r.table].(indexes := Dict(Noted(d.keys, r.name), Extend(d.vals, r)))];
      }
    }
    assert rows[..|rows|] == rows;
  }

  method AddForeignKeys(tables0: map<string, MutableTable>, rows: seq<PartRow<ForeignHead, ForeignPart>>) returns (tables: map<string, MutableTable>)
    requires forall t :: t in tables0 ==> tables0[t].foreignKeys == Dict([], map[])
    ensures tables.Keys == tables0.Keys
    ensures forall t :: t in tables ==> tables[t] == tables0[t].(foreignKeys := Dict(GroupNames(rows, t), GroupsOf(rows, t)))
  {
    hide Extend, Noted;
    tables := tables0;
    for k := 0 to |rows|
      invariant tables.Keys == tables0.Keys
      invariant forall t :: t in tables ==> tables[t] == tables0[t].(foreignKeys := Dict(GroupNames(rows[..k], t), GroupsOf(rows[..k], t)))
    {
      assert rows[..k + 1][..k] == rows[..k];
      var r := rows[k];
      if r.table in tables {
        var d := tables[r.table].foreignKeys;
        tables := tables[r.table := tables[r.table].(foreignKeys := Dict(Noted(d.keys, r.name), Extend(d.vals, r)))];
      }
    }
    assert rows[..|rows|] == rows;
  }

  method BuildSchemaManifest(rows: Rows, migrations: Option<seq<string>>, allowed: seq<string>) returns (m: Manifest, order: Order)
    ensures m == Build(rows, migrations, allowed)
    ensures order == OrderOf(rows)
  {
    hide TablesOf, TriggersOf, TriggerNames, SortStrings, SortedRecord, TableNames, Build, OrderOf;
    var named := AddTables(rows.tables);
    var tables := FillTables(rows, named.vals);
    m := CloseTables(rows, tables, migrations, allowed);
    order := ListTables(rows, named.keys, tables);
  }

  /** Every Map of every table holds what its rows put there. */
  ghost predicate Filled(rows: Rows, tables: map<string, MutableTable>) {
    && tables.Keys == TablesOf(rows.tables).Keys
    && forall t :: t in tables ==>
         tables[t] == MutableTable(TablesOf(rows.tables)[t], Dict(ColumnNames(rows.columns, t), ColumnsOf(rows.columns, t)),
                                   Dict(GroupNames(rows.indexes, t), GroupsOf(rows.indexes, t)),
                                   Dict(GroupNames(rows.foreignKeys, t), GroupsOf(rows.foreignKeys, t)))
  }

  method FillTables(rows: Rows, named: map<string, MutableTable>) returns (tables: map<string, MutableTable>)
    requires named.Keys == TablesOf(rows.tables).Keys
    requires forall t :: t in named ==> named[t] == MutableTable(TablesOf(rows.tables)[t], Dict([], map[]), Dict([], map[]), Dict([], map[]))
    ensures Filled(rows, tables)
  {
    hide ColumnsOf, GroupsOf, TablesOf, ColumnNames, GroupNames;
    tables := AddColumns(named, rows.columns);
    tables := AddIndexes(tables, rows.indexes);
    tables := AddForeignKeys(tables, rows.foreignKeys);
  }

  function CloseTables(rows: Rows, tables: map<string, MutableTable>, migrations: Option<seq<string>>, allowed: seq<string>): (m: Manifest)
    requires Filled(rows, tables)
    ensures m == Build(rows, migrations, allowed)
  {
    hide ColumnsOf, GroupsOf, Close, CloseAll, ColumnNames, GroupNames;
    assert forall t :: t in tables ==> tables[t].row.table == t by {
      forall t | t in tables ensures tables[t].row.table == t { TablesNamed(rows.tables, t); }
    }
    hide TablesOf;
    Manifest(if migrations.None? then [] else migrations.value, SortStrings(allowed),
             map t | t in tables ::
               TableSpec(tables[t].row.engine, tables[t].row.collation, tables[t].columns.vals, CloseAll(tables[t].indexes.vals), CloseAll(tables[t].foreignKeys.vals)),
             TriggersOf(rows.triggers))
  }

  function ListTables(rows: Rows, names: seq<string>, tables: map<string, MutableTable>): (order: Order)
    requires Filled(rows, tables) && names == TableNames(rows.tables)
    ensures order == OrderOf(rows)
  {
    hide ColumnsOf, GroupsOf, TablesOf, ColumnNames, GroupNames, TableNames, TriggerNames, SortedRecord;
    assert forall t :: t in tables ==>
      TableOrder(SortedRecord(tables[t].columns.keys), SortedRecord(tables[t].indexes.keys), SortedRecord(tables[t].foreignKeys.keys)) == TableOrderOf(rows, t);
    hide TableOrderOf;
    Order(SortedRecord(names),
          map t | t in tables ::
            TableOrder(SortedRecord(tables[t].columns.keys), SortedRecord(tables[t].indexes.keys), SortedRecord(tables[t].foreignKeys.keys)),
          SortedRecord(TriggerNames(rows.triggers)))
  }

  lemma {:induction false} TablesNamed(rows: seq<TableRow>, t: string)
    requires t in TablesOf(rows)
    ensures TablesOf(rows)[t].table == t && TablesOf(rows)[t] in rows
  {
    var n := |rows| - 1;
    if rows[n].table != t { TablesNamed(rows[..n], t); }
  }

  // ---------------------------------------------------------------- row order does not matter

  ghost predicate OneRowPerTable(rows: seq<TableRow>) {
    forall x, y :: x in rows && y in rows && x.table == y.table ==> x == y
  }

  ghost predicate OneRowPerColumn(rows: seq<ColumnRow>) {
    forall x, y :: x in rows && y in rows && x.table == y.table && x.name == y.name ==> x == y
  }

  ghost predicate OneRowPerTrigger(rows: seq<TriggerRow>) {
    forall x, y :: x in rows && y in rows && x.name == y.name ==> x == y
  }

  /** One head per group, and distinct positions within it. */
  ghost predicate Consistent<H, P>(rows: seq<PartRow<H, P>>) {
    forall x, y :: x in rows && y in rows && x.table == y.table && x.name == y.name ==> x.head == y.head && (x.pos == y.pos ==> x == y)
  }

  ghost predicate Reordered<R>(a: seq<R>, b: seq<R>) {
    multiset(a) == multiset(b)
  }

  lemma {:induction false} SameMembers<R>(a: seq<R>, b: seq<R>, x: R)
    requires Reordered(a, b)
    ensures x in a <==> x in b
  {
    assert x in multiset(a) <==> x in multiset(b);
  }

  lemma {:induction false} TablesMeaning(rows: seq<TableRow>, r: TableRow)
    requires OneRowPerTable(rows)
    ensures r in rows <==> r.table in TablesOf(rows) && TablesOf(rows)[r.table] == r
  {
    if rows != [] {
      var n := |rows| - 1;
      assert rows == rows[..n] + [rows[n]];
      TablesMeaning(rows[..n], r);
    }
  }

  lemma {:induction false} ColumnsMeaning(rows: seq<ColumnRow>, t: string, n: string, spec: ColumnSpec)
    requires OneRowPerColumn(rows)
    ensures ColumnRow(t, n, spec) in rows <==> n in ColumnsOf(rows, t) && ColumnsOf(rows, t)[n] == spec
  {
    if rows != [] {
      var k := |rows| - 1;
      assert rows == rows[..k] + [rows[k]];
      ColumnsMeaning(rows[..k], t, n, spec);
    }
  }

  lemma {:induction false} TriggersMeaning(rows: seq<TriggerRow>, n: string, spec: TriggerSpec)
    requires OneRowPerTrigger(rows)
    ensures TriggerRow(n, spec) in rows <==> n in TriggersOf(rows) && TriggersOf(rows)[n] == spec
  {
    if rows != [] {
      var k := |rows| - 1;
      assert rows == rows[..k] + [rows[k]];
      TriggersMeaning(rows[..k], n, spec);
    }
  }

  /** The parts of one group, in row order. */
  function PartsOf<H, P>(rows: seq<PartRow<H, P>>, t: string, n: string): seq<Placed<P>> {
    if rows == [] then []
    else
      var r := rows[|rows| - 1];
      PartsOf(rows[..|rows| - 1], t, n) + if r.table == t && r.name == n then [Placed(r.pos, r.part)] else []
  }

  lemma {:induction false} GroupsMeaning<H, P>(rows: seq<PartRow<H, P>>, t: string, n: string)
    requires Consistent(rows)
    ensures n in GroupsOf(rows, t) <==> exists r :: r in rows && r.table == t && r.name == n
    ensures n in GroupsOf(rows, t) ==>
              && GroupsOf(rows, t)[n].parts == PartsOf(rows, t, n)
              && forall r :: r in rows && r.table == t && r.name == n ==> r.head == GroupsOf(rows, t)[n].head
  {
    if rows != [] {
      var k := |rows| - 1;
      assert rows == rows[..k] + [rows[k]];
      GroupsMeaning(rows[..k], t, n);
      if n !in GroupsOf(rows[..k], t) { NoParts(rows[..k], t, n); }
    }
  }

  lemma {:induction false} NoParts<H, P>(rows: seq<PartRow<H, P>>, t: string, n: string)
    requires !exists r :: r in rows && r.table == t && r.name == n
    ensures PartsOf(rows, t, n) == []
  {
    if rows != [] {
      var k := |rows| - 1;
      assert rows[k] in rows;
      assert forall r :: r in rows[..k] ==> r in rows;
      NoParts(rows[..k], t, n);
    }
  }

  lemma {:induction false} PartsSplit<H, P>(a: seq<PartRow<H, P>>, b: seq<PartRow<H, P>>, t: string, n: string)
    ensures PartsOf(a + b, t, n) == PartsOf(a, t, n) + PartsOf(b, t, n)
  {
    if b == [] {
      assert a + b == a;
    } else {
      var k := |b| - 1;
      assert (a + b)[..|a + b| - 1] == a + b[..k];
      PartsSplit(a, b[..k], t, n);
    }
  }

  lemma {:induction false} RemoveAt<R>(b: seq<R>, i: nat)
    requires i < |b|
    ensures multiset(b[..i] + b[i + 1..]) == multiset(b) - multiset{b[i]}
  {
    assert b == b[..i] + [b[i]] + b[i + 1..];
  }

  lemma {:induction false} PartsWithout<H, P>(b: seq<PartRow<H, P>>, i: nat, t: string, n: string)
    requires i < |b|
    ensures multiset(PartsOf(b, t, n)) == multiset(PartsOf(b[..i] + b[i + 1..], t, n)) + multiset(PartsOf([b[i]], t, n))
  {
    assert b == b[..i] + [b[i]] + b[i + 1..];
    PartsSplit(b[..i] + [b[i]], b[i + 1..], t, n);
    PartsSplit(b[..i], [b[i]], t, n);
    PartsSplit(b[..i], b[i + 1..], t, n);
  }

  /** Reordered rows give reordered parts. */
  lemma {:induction false} PartsReordered<H, P>(a: seq<PartRow<H, P>>, b: seq<PartRow<H, P>>, t: string, n: string)
    requires Reordered(a, b)
    ensures Reordered(PartsOf(a, t, n), PartsOf(b, t, n))
    decreases |a|
  {
    hide PartsOf;
    SameLength(a, b);
    if a != [] {
      SameMembers(a, b, a[0]);
      var i :| 0 <= i < |b| && b[i] == a[0];
      var a1, b1 := a[..0] + a[1..], b[..i] + b[i + 1..];
      assert Reordered(a1, b1) by { RemoveAt(a, 0); RemoveAt(b, i); }
      PartsWithout(a, 0, t, n);
      PartsWithout(b, i, t, n);
      PartsReordered(a1, b1, t, n);
    }
  }

  lemma {:induction false} SameLength<R>(a: seq<R>, b: seq<R>)
    requires Reordered(a, b)
    ensures |a| == |b|
  {
    assert |a| == |multiset(a)| && |b| == |multiset(b)|;
  }

  lemma {:induction false} PartsFromRows<H, P>(rows: seq<PartRow<H, P>>, t: string, n: string, p: Placed<P>)
    requires p in PartsOf(rows, t, n)
    ensures exists r :: r in rows && r.table == t && r.name == n && r.pos == p.pos && r.part == p.part
  {
    var k := |rows| - 1;
    var r := rows[k];
    if r.table == t && r.name == n && p == Placed(r.pos, r.part) {
      assert r in rows;
    } else {
      PartsFromRows(rows[..k], t, n, p);
      assert forall x :: x in rows[..k] ==> x in rows;
    }
  }

  lemma {:induction false} GroupReordered<H(!new), P(!new)>(a: seq<PartRow<H, P>>, b: seq<PartRow<H, P>>, t: string, n: string)
    requires Reordered(a, b) && Consistent(a)
    ensures n in GroupsOf(a, t) <==> n in GroupsOf(b, t)
    ensures n in GroupsOf(a, t) && n in GroupsOf(b, t) ==> Close(GroupsOf(a, t)[n]) == Close(GroupsOf(b, t)[n])
  {
    hide PartsOf, GroupsOf;
    forall x ensures x in a <==> x in b { SameMembers(a, b, x); }
    hide Reordered;
    GroupsMeaning(a, t, n);
    GroupsMeaning(b, t, n);
    PartsReordered(a, b, t, n);
    PartsUntied(a, t, n);
    if n in GroupsOf(a, t) { ClosesAlike(GroupsOf(a, t)[n], GroupsOf(b, t)[n]); }
  }

  lemma {:induction false} ClosesAlike<H, P(!new)>(x: Open<H, P>, y: Open<H, P>)
    requires x.head == y.head && Reordered(x.parts, y.parts) && Untied(x.parts, (p: Placed<P>, q: Placed<P>) => ByPosition(p, q))
    ensures Close(x) == Close(y)
  {
    SortIsCanonical(x.parts, y.parts, (p: Placed<P>, q: Placed<P>) => ByPosition(p, q));
  }

  lemma {:induction false} GroupsReordered<H(!new), P(!new)>(a: seq<PartRow<H, P>>, b: seq<PartRow<H, P>>, t: string)
    requires Reordered(a, b) && Consistent(a)
    ensures CloseAll(GroupsOf(a, t)) == CloseAll(GroupsOf(b, t))
  {
    hide GroupsOf, Close, Consistent, Reordered;
    forall n
      ensures n in GroupsOf(a, t) <==> n in GroupsOf(b, t)
      ensures n in GroupsOf(a, t) && n in GroupsOf(b, t) ==> Close(GroupsOf(a, t)[n]) == Close(GroupsOf(b, t)[n])
    {
      GroupReordered(a, b, t, n);
    }
  }

  lemma {:induction false} PartsUntied<H, P>(rows: seq<PartRow<H, P>>, t: string, n: string)
    requires Consistent(rows)
    ensures Untied(PartsOf(rows, t, n), (x: Placed<P>, y: Placed<P>) => ByPosition(x, y))
  {
    var parts := PartsOf(rows, t, n);
    forall x, y | x in parts && y in parts && x.pos == y.pos ensures x == y {
      PartsFromRows(rows, t, n, x);
      PartsFromRows(rows, t, n, y);
    }
  }

  /** Metadata rows in any order build the same manifest. */
  lemma {:induction false} BuildIgnoresRowOrder(a: Rows, b: Rows, migrations: Option<seq<string>>, allowed: seq<string>)
    requires Reordered(a.tables, b.tables) && OneRowPerTable(a.tables)
    requires Reordered(a.columns, b.columns) && OneRowPerColumn(a.columns)
    requires Reordered(a.triggers, b.triggers) && OneRowPerTrigger(a.triggers)
    requires Reordered(a.indexes, b.indexes) && Consistent(a.indexes)
    requires Reordered(a.foreignKeys, b.foreignKeys) && Consistent(a.foreignKeys)
    ensures Build(a, migrations, allowed) == Build(b, migrations, allowed) && OrderOf(a) == OrderOf(b)
  {
    hide OrderOf;
    OrderIgnoresRowOrder(a, b);
    TablesReordered(a.tables, b.tables);
    TriggersReordered(a.triggers, b.triggers);
    forall t ensures ColumnsOf(a.columns, t) == ColumnsOf(b.columns, t) { ColumnsReordered(a.columns, b.columns, t); }
    forall t ensures CloseAll(GroupsOf(a.indexes, t)) == CloseAll(GroupsOf(b.indexes, t)) { GroupsReordered(a.indexes, b.indexes, t); }
    forall t ensures CloseAll(GroupsOf(a.foreignKeys, t)) == CloseAll(GroupsOf(b.foreignKeys, t)) { GroupsReordered(a.foreignKeys, b.foreignKeys, t); }
    var m, m' := Build(a, migrations, allowed), Build(b, migrations, allowed);
    assert m.tables == m'.tables;
  }

  lemma {:induction false} OrderIgnoresRowOrder(a: Rows, b: Rows)
    requires Reordered(a.tables, b.tables) && OneRowPerTable(a.tables)
    requires Reordered(a.columns, b.columns) && OneRowPerColumn(a.columns)
    requires Reordered(a.triggers, b.triggers) && OneRowPerTrigger(a.triggers)
    requires Reordered(a.indexes, b.indexes) && Consistent(a.indexes)
    requires Reordered(a.foreignKeys, b.foreignKeys) && Consistent(a.foreignKeys)
    ensures OrderOf(a) == OrderOf(b)
  {
    hide SortedRecord, Reordered, Consistent, OneRowPerTable, OneRowPerColumn, OneRowPerTrigger, TableNames, TriggerNames, ColumnNames, GroupNames, TablesOf;
    TablesInOrder(a.tables, b.tables);
    TriggerOrder(a.triggers, b.triggers);
    forall t ensures TableOrderOf(a, t) == TableOrderOf(b, t) {
      ColumnOrder(a.columns, b.columns, t);
      GroupOrder(a.indexes, b.indexes, t);
      GroupOrder(a.foreignKeys, b.foreignKeys, t);
    }
    hide TableOrderOf;
    assert OrderOf(a).inside == OrderOf(b).inside;
  }

  lemma {:induction false} TablesInOrder(a: seq<TableRow>, b: seq<TableRow>)
    requires Reordered(a, b) && OneRowPerTable(a)
    ensures TablesOf(a) == TablesOf(b) && SortedRecord(TableNames(a)) == SortedRecord(TableNames(b))
  {
    TablesReordered(a, b);
    forall n ensures n in TableNames(a) <==> n in TableNames(b) { TableNamesMembers(a, n); TableNamesMembers(b, n); }
    SameNamesSameRecord(TableNames(a), TableNames(b));
  }

  lemma {:induction false} TriggerOrder(a: seq<TriggerRow>, b: seq<TriggerRow>)
    requires Reordered(a, b) && OneRowPerTrigger(a)
    ensures SortedRecord(TriggerNames(a)) == SortedRecord(TriggerNames(b))
  {
    TriggersReordered(a, b);
    forall n ensures n in TriggerNames(a) <==> n in TriggerNames(b) { TriggerNamesMembers(a, n); TriggerNamesMembers(b, n); }
    SameNamesSameRecord(TriggerNames(a), TriggerNames(b));
  }

  lemma {:induction false} ColumnOrder(a: seq<ColumnRow>, b: seq<ColumnRow>, t: string)
    requires Reordered(a, b) && OneRowPerColumn(a)
    ensures SortedRecord(ColumnNames(a, t)) == SortedRecord(ColumnNames(b, t))
  {
    ColumnsReordered(a, b, t);
    forall n ensures n in ColumnNames(a, t) <==> n in ColumnNames(b, t) { ColumnNamesMembers(a, t, n); ColumnNamesMembers(b, t, n); }
    SameNamesSameRecord(ColumnNames(a, t), ColumnNames(b, t));
  }

  lemma {:induction false} GroupOrder<H(!new), P(!new)>(a: seq<PartRow<H, P>>, b: seq<PartRow<H, P>>, t: string)
    requires Reordered(a, b) && Consistent(a)
    ensures SortedRecord(GroupNames(a, t)) == SortedRecord(GroupNames(b, t))
  {
    forall n ensures n in GroupNames(a, t) <==> n in GroupNames(b, t) {
      GroupReordered(a, b, t, n);
      GroupNamesMembers(a, t, n);
      GroupNamesMembers(b, t, n);
    }
    SameNamesSameRecord(GroupNames(a, t), GroupNames(b, t));
  }

  lemma {:induction false} TablesReordered(a: seq<TableRow>, b: seq<TableRow>)
    requires Reordered(a, b) && OneRowPerTable(a)
    ensures TablesOf(a) == TablesOf(b)
  {
    forall x ensures x in a <==> x in b { SameMembers(a, b, x); }
    forall r ensures r in a <==> r.table in TablesOf(a) && TablesOf(a)[r.table] == r { TablesMeaning(a, r); }
    forall r ensures r in b <==> r.table in TablesOf(b) && TablesOf(b)[r.table] == r { TablesMeaning(b, r); }
    forall t ensures t in TablesOf(a) <==> t in TablesOf(b) {
      if t in TablesOf(a) { TablesNamed(a, t); }
      if t in TablesOf(b) { TablesNamed(b, t); }
    }
    forall t | t in TablesOf(a) ensures TablesOf(a)[t] == TablesOf(b)[t] { TablesNamed(a, t); }
  }

  lemma {:induction false} ColumnsReordered(a: seq<ColumnRow>, b: seq<ColumnRow>, t: string)
    requires Reordered(a, b) && OneRowPerColumn(a)
    ensures ColumnsOf(a, t) == ColumnsOf(b, t)
  {
    forall x ensures x in a <==> x in b { SameMembers(a, b, x); }
    forall n, spec ensures ColumnRow(t, n, spec) in a <==> n in ColumnsOf(a, t) && ColumnsOf(a, t)[n] == spec { ColumnsMeaning(a, t, n, spec); }
    forall n, spec ensures ColumnRow(t, n, spec) in b <==> n in ColumnsOf(b, t) && ColumnsOf(b, t)[n] == spec { ColumnsMeaning(b, t, n, spec); }
    forall n ensures n in ColumnsOf(a, t) <==> n in ColumnsOf(b, t) {
      if n in ColumnsOf(a, t) { assert ColumnRow(t, n, ColumnsOf(a, t)[n]) in b; }
      if n in ColumnsOf(b, t) { assert ColumnRow(t, n, ColumnsOf(b, t)[n]) in a; }
    }
    forall n | n in ColumnsOf(a, t) ensures ColumnsOf(a, t)[n] == ColumnsOf(b, t)[n] { assert ColumnRow(t, n, ColumnsOf(a, t)[n]) in b; }
  }

  lemma {:induction false} TriggersReordered(a: seq<TriggerRow>, b: seq<TriggerRow>)
    requires Reordered(a, b) && OneRowPerTrigger(a)
    ensures TriggersOf(a) == TriggersOf(b)
  {
    forall x ensures x in a <==> x in b { SameMembers(a, b, x); }
    forall n, spec ensures TriggerRow(n, spec) in a <==> n in TriggersOf(a) && TriggersOf(a)[n] == spec { TriggersMeaning(a, n, spec); }
    forall n, spec ensures TriggerRow(n, spec) in b <==> n in TriggersOf(b) && TriggersOf(b)[n] == spec { TriggersMeaning(b, n, spec); }
    forall n ensures n in TriggersOf(a) <==> n in TriggersOf(b) {
      if n in TriggersOf(a) { assert TriggerRow(n, TriggersOf(a)[n]) in b; }
      if n in TriggersOf(b) { assert TriggerRow(n, TriggersOf(b)[n]) in a; }
    }
    forall n | n in TriggersOf(a) ensures TriggersOf(a)[n] == TriggersOf(b)[n] { assert TriggerRow(n, TriggersOf(a)[n]) in b; }
  }

  // ---------------------------------------------------------------- the manifest says what the rows say

  /** A table, column or trigger row is in the manifest, as it was read, exactly if it is among the rows. */
  lemma {:induction false} RowsAsRead(rows: Rows, migrations: Option<seq<string>>, allowed: seq<string>, r: TableRow, c: ColumnRow, g: TriggerRow)
    requires OneRowPerTable(rows.tables) && OneRowPerColumn(rows.columns) && OneRowPerTrigger(rows.triggers)
    ensures var m := Build(rows, migrations, allowed);
            && (r in rows.tables <==> r.table in m.tables && m.tables[r.table].engine == r.engine && m.tables[r.table].collation == r.collation)
            && (c.table in m.tables ==> (c in rows.columns <==> c.name in m.tables[c.table].columns && m.tables[c.table].columns[c.name] == c.spec))
            && (g in rows.triggers <==> g.name in m.triggers && m.triggers[g.name] == g.spec)
            && m.migrations == (if migrations.None? then [] else migrations.value)
            && multiset(m.allowedExtraTables) == multiset(allowed) && Ordered(m.allowedExtraTables, StrLeq)
  {
    TablesMeaning(rows.tables, r);
    if r.table in TablesOf(rows.tables) { TablesKeyed(rows.tables, r.table); }
    ColumnsMeaning(rows.columns, c.table, c.name, c.spec);
    TriggersMeaning(rows.triggers, g.name, g.spec);
    if c.table in TablesOf(rows.tables) { TablesKeyed(rows.tables, c.table); }
    StringsAreOrdered();
    SortPermutes(allowed, StrLeq);
    SortOrders(allowed, StrLeq);
    hide TablesOf, ColumnsOf, TriggersOf, GroupsOf, CloseAll, Sort;
  }

  lemma {:induction false} TablesKeyed(rows: seq<TableRow>, t: string)
    requires t in TablesOf(rows)
    ensures TablesOf(rows)[t].table == t
  {
    if t in TablesOf(rows[..|rows| - 1]) { TablesKeyed(rows[..|rows| - 1], t); }
  }

  /** The parts of a group, by position. */
  ghost predicate InPosition<P>(parts: seq<P>, placed: seq<Placed<P>>, read: seq<Placed<P>>) {
    && multiset(placed) == multiset(read) && |parts| == |placed|
    && (forall i, j :: 0 <= i < j < |placed| ==> placed[i].pos <= placed[j].pos)
    && (forall i :: 0 <= i < |parts| ==> parts[i] == placed[i].part)
  }

  /** A group is there exactly if a row names it, with its rows' head and all its parts in the order of their positions. */
  lemma {:induction false} GroupAsRead<H, P(!new)>(rows: seq<PartRow<H, P>>, t: string, n: string)
    requires Consistent(rows)
    ensures var groups := CloseAll(GroupsOf(rows, t));
            && (n in groups <==> exists r :: r in rows && r.table == t && r.name == n)
            && (n in groups ==>
                  && (forall r :: r in rows && r.table == t && r.name == n ==> groups[n].head == r.head)
                  && exists placed :: InPosition(groups[n].parts, placed, PartsOf(rows, t, n)))
  {
    GroupsMeaning(rows, t, n);
    if n in GroupsOf(rows, t) {
      var leq := (a: Placed<P>, b: Placed<P>) => ByPosition(a, b);
      var read := PartsOf(rows, t, n);
      var placed := Sort(read, leq);
      SortPermutes(read, leq);
      SortOrders(read, leq);
      hide GroupsOf, PartsOf, Sort, Consistent;
      assert Close(GroupsOf(rows, t)[n]).parts == PartsIn(placed);
      assert InPosition(PartsIn(placed), placed, read);
    }
  }

  /** Every table of the manifest carries exactly the groups of its own rows. */
  lemma {:induction false} GroupsAsRead(rows: Rows, migrations: Option<seq<string>>, allowed: seq<string>, t: string, n: string)
    requires Consistent(rows.indexes) && Consistent(rows.foreignKeys) && t in Build(rows, migrations, allowed).tables
    ensures var table := Build(rows, migrations, allowed).tables[t];
            && (n in table.indexes <==> exists r :: r in rows.indexes && r.table == t && r.name == n)
            && (n in table.indexes ==>
                  && (forall r :: r in rows.indexes && r.table == t && r.name == n ==> table.indexes[n].head == r.head)
                  && exists placed :: InPosition(table.indexes[n].parts, placed, PartsOf(rows.indexes, t, n)))
            && (n in table.foreignKeys <==> exists r :: r in rows.foreignKeys && r.table == t && r.name == n)
            && (n in table.foreignKeys ==>
                  && (forall r :: r in rows.foreignKeys && r.table == t && r.name == n ==> table.foreignKeys[n].head == r.head)
                  && exists placed :: InPosition(table.foreignKeys[n].parts, placed, PartsOf(rows.foreignKeys, t, n)))
  {
    TablesKeyed(rows.tables, t);
    GroupAsRead(rows.indexes, t, n);
    GroupAsRead(rows.foreignKeys, t, n);
    hide TablesOf, ColumnsOf, TriggersOf, GroupsOf, CloseAll, Consistent, InPosition, PartsOf, SortStrings;
  }
}
