/** Building a schema manifest from metadata rows, and comparing two of them. */
module SchemaManifest {

  // ---------------------------------------------------------------- data

  /** Column type, nullability, default and so on, already normalised. */
  type ColumnSpec = seq<string>

  datatype IndexHead = IndexHead(unique: bool, kind: string)
  datatype ForeignHead = ForeignHead(referencedTable: string, onUpdate: string, onDelete: string)
  datatype ForeignPart = ForeignPart(column: string, referencedColumn: string)

  /** An index or foreign key: what it is, and its parts in position order. */
  datatype Grouped<H, P> = Grouped(head: H, parts: seq<P>)

  type IndexSpec = Grouped<IndexHead, string>
  type ForeignKeySpec = Grouped<ForeignHead, ForeignPart>

  datatype TableSpec = TableSpec(engine: string, collation: string, columns: map<string, ColumnSpec>,
                                 indexes: map<string, IndexSpec>, foreignKeys: map<string, ForeignKeySpec>)
  datatype TriggerSpec = TriggerSpec(table: string, event: string, timing: string, body: string)

  datatype Manifest = Manifest(migrations: seq<string>, allowedExtraTables: seq<string>,
                               tables: map<string, TableSpec>, triggers: map<string, TriggerSpec>)

  // ---------------------------------------------------------------- comparing

  datatype Kind =
    | Migrations | MissingTable | ExtraTable | ChangedTable
    | MissingColumn | ExtraColumn | ChangedColumn
    | MissingIndex | ExtraIndex | ChangedIndex
    | MissingForeignKey | ExtraForeignKey | ChangedForeignKey
    | MissingTrigger | ExtraTrigger | ChangedTrigger

  datatype Kinds = Kinds(missing: Kind, extra: Kind, changed: Kind)
  datatype Drift = Drift(kind: Kind, object: string)

  const BOOKKEEPING: set<string> := {"knex_migrations", "knex_migrations_lock"}

  /** Names every plain object answers to without owning them. */
  const INHERITED: set<string> := {
    "constructor", "hasOwnProperty", "isPrototypeOf", "propertyIsEnumerable", "toLocaleString", "toString", "valueOf",
    "__proto__", "__defineGetter__", "__defineSetter__", "__lookupGetter__", "__lookupSetter__" }

  /** The drifts of one named collection: own-property reads on one side, `in` on the other. */
  predicate NamedDrift<T(==)>(d: Drift, prefix: string, e: map<string, T>, a: map<string, T>, k: Kinds) {
    || (exists n :: n in e && n !in a && n !in INHERITED && d == Drift(k.missing, prefix + n))
    || (exists n :: n in e && n !in a && n in INHERITED && d == Drift(k.changed, prefix + n))
    || (exists n :: n in e && n in a && e[n] != a[n] && d == Drift(k.changed, prefix + n))
    || (exists n :: n in a && n !in e && n !in INHERITED && d == Drift(k.extra, prefix + n))
  }

  method DiffNamed<T(==)>(drifts0: seq<Drift>, prefix: string, e: map<string, T>, a: map<string, T>, k: Kinds) returns (drifts: seq<Drift>)
    ensures forall d :: d in drifts <==> d in drifts0 || NamedDrift(d, prefix, e, a, k)
  {
    drifts := drifts0;
    var todo := e.Keys;
    while todo != {}
      invariant todo <= e.Keys
      invariant forall d :: d in drifts <==>
        || d in drifts0
        || (exists n :: n in e && n !in todo && n !in a && n !in INHERITED && d == Drift(k.missing, prefix + n))
        || (exists n :: n in e && n !in todo && n !in a && n in INHERITED && d == Drift(k.changed, prefix + n))
        || (exists n :: n in e && n !in todo && n in a && e[n] != a[n] && d == Drift(k.changed, prefix + n))
      decreases todo
    {
      var name :| name in todo;
      if name !in a && name !in INHERITED {
        drifts := drifts + [Drift(k.missing, prefix + name)];
      } else if name !in a || e[name] != a[name] {
        drifts := drifts + [Drift(k.changed, prefix + name)];
      }
      todo := todo - {name};
    }
    todo := a.Keys;
    ghost var base := drifts;
    while todo != {}
      invariant todo <= a.Keys
      invariant forall d :: d in drifts <==>
        d in base || (exists n :: n in a && n !in todo && n !in e && n !in INHERITED && d == Drift(k.extra, prefix + n))
      decreases todo
    {
      var name :| name in todo;
      if name !in e && name !in INHERITED { drifts := drifts + [Drift(k.extra, prefix + name)]; }
      todo := todo - {name};
    }
  }

  /** What an empty named diff means. */
  ghost predicate NamedConforms<T>(e: map<string, T>, a: map<string, T>) {
    && (forall n :: n in e ==> n in a && e[n] == a[n])
    && (forall n :: n in a ==> n in e || n in INHERITED)
  }

  lemma {:induction false} NoNamedDriftIff<T>(prefix: string, e: map<string, T>, a: map<string, T>, k: Kinds)
    ensures (forall d :: !NamedDrift(d, prefix, e, a, k)) <==> NamedConforms(e, a)
  {
    if forall d :: !NamedDrift(d, prefix, e, a, k) {
      forall n | n in e ensures n in a && e[n] == a[n] {
        assert !NamedDrift(Drift(k.missing, prefix + n), prefix, e, a, k);
        assert !NamedDrift(Drift(k.changed, prefix + n), prefix, e, a, k);
      }
      forall n | n in a ensures n in e || n in INHERITED {
        assert !NamedDrift(Drift(k.extra, prefix + n), prefix, e, a, k);
      }
    }
  }

  const COLUMN_KINDS := Kinds(MissingColumn, ExtraColumn, ChangedColumn)
  const INDEX_KINDS := Kinds(MissingIndex, ExtraIndex, ChangedIndex)
  const FOREIGN_KINDS := Kinds(MissingForeignKey, ExtraForeignKey, ChangedForeignKey)
  const TRIGGER_KINDS := Kinds(MissingTrigger, ExtraTrigger, ChangedTrigger)

  ghost predicate TableDrift(d: Drift, name: string, spec: TableSpec, got: TableSpec) {
    || (d == Drift(ChangedTable, name) && (spec.engine != got.engine || spec.collation != got.collation))
    || NamedDrift(d, name + ".", spec.columns, got.columns, COLUMN_KINDS)
    || NamedDrift(d, name + ".", spec.indexes, got.indexes, INDEX_KINDS)
    || NamedDrift(d, name + ".", spec.foreignKeys, got.foreignKeys, FOREIGN_KINDS)
  }

  ghost predicate ManifestDrift(d: Drift, e: Manifest, a: Manifest) {
    || (d == Drift(Migrations, "knex_migrations") && e.migrations != a.migrations)
    || (exists n :: n in e.tables && n !in a.tables && d == Drift(MissingTable, n))
    || (exists n :: n in e.tables && n in a.tables && n !in BOOKKEEPING && TableDrift(d, n, e.tables[n], a.tables[n]))
    || (exists n :: n in a.tables && n !in e.tables && n !in INHERITED && n !in e.allowedExtraTables && d == Drift(ExtraTable, n))
    || NamedDrift(d, "", e.triggers, a.triggers, TRIGGER_KINDS)
  }

  method DiffTable(drifts0: seq<Drift>, name: string, spec: TableSpec, got: TableSpec) returns (drifts: seq<Drift>)
    ensures forall d :: d in drifts <==> d in drifts0 || TableDrift(d, name, spec, got)
  {
    hide NamedDrift;
    drifts := drifts0;
    if spec.engine != got.engine || spec.collation != got.collation { drifts := drifts + [Drift(ChangedTable, name)]; }
    drifts := DiffNamed(drifts, name + ".", spec.columns, got.columns, COLUMN_KINDS);
    drifts := DiffNamed(drifts, name + ".", spec.indexes, got.indexes, INDEX_KINDS);
    drifts := DiffNamed(drifts, name + ".", spec.foreignKeys, got.foreignKeys, FOREIGN_KINDS);
  }

  /** Crashed: the value read for a missing table was inherited and has no columns to list. */
  datatype Outcome = Crashed | Drifts(list: seq<Drift>)

  /** A missing expected table whose name every object answers to. */
  predicate Stumbles(e: Manifest, a: Manifest) {
    exists n :: n in e.tables && n !in a.tables && n in INHERITED
  }

  method DiffTables(drifts0: seq<Drift>, e: Manifest, a: Manifest) returns (r: Outcome)
    ensures r.Crashed? <==> Stumbles(e, a)
    ensures r.Drifts? ==> forall d :: d in r.list <==>
      || d in drifts0
      || (exists n :: n in e.tables && n !in a.tables && d == Drift(MissingTable, n))
      || (exists n :: n in e.tables && n in a.tables && n !in BOOKKEEPING && TableDrift(d, n, e.tables[n], a.tables[n]))
  {
    hide TableDrift;
    var drifts := drifts0;
    var todo := e.tables.Keys;
    while todo != {}
      invariant todo <= e.tables.Keys
      invariant forall n :: n in e.tables && n !in todo ==> n in a.tables || n !in INHERITED
      invariant forall d :: d in drifts <==>
        || d in drifts0
        || (exists n :: n in e.tables && n !in todo && n !in a.tables && d == Drift(MissingTable, n))
        || (exists n :: n in e.tables && n !in todo && n in a.tables && n !in BOOKKEEPING && TableDrift(d, n, e.tables[n], a.tables[n]))
      decreases todo
    {
      var name :| name in todo;
      if name !in a.tables {
        if name in INHERITED { return Crashed; }
        drifts := drifts + [Drift(MissingTable, name)];
      } else if name !in BOOKKEEPING {
        drifts := DiffTable(drifts, name, e.tables[name], a.tables[name]);
      }
      todo := todo - {name};
    }
    r := Drifts(drifts);
  }

  method DiffSchemaManifest(e: Manifest, a: Manifest) returns (r: Outcome)
    ensures r.Crashed? <==> Stumbles(e, a)
    ensures r.Drifts? ==> forall d :: d in r.list <==> ManifestDrift(d, e, a)
    ensures r == Drifts([]) <==> Matches(e, Visible(e, a))
  {
    hide NamedDrift, TableDrift, Matches, Visible;
    EmptyDiffIff(e, a);
    var drifts: seq<Drift> := [];
    if e.migrations != a.migrations { drifts := [Drift(Migrations, "knex_migrations")]; }
    r := DiffTables(drifts, e, a);
    if r.Crashed? { return; }
    drifts := r.list;
    var todo := a.tables.Keys;
    ghost var base := drifts;
    while todo != {}
      invariant todo <= a.tables.Keys
      invariant forall d :: d in drifts <==>
        d in base || (exists n :: n in a.tables && n !in todo && n !in e.tables && n !in INHERITED && n !in e.allowedExtraTables && d == Drift(ExtraTable, n))
      decreases todo
    {
      var name :| name in todo;
      if name !in e.tables && name !in INHERITED && name !in e.allowedExtraTables { drifts := drifts + [Drift(ExtraTable, name)]; }
      todo := todo - {name};
    }
    drifts := DiffNamed(drifts, "", e.triggers, a.triggers, TRIGGER_KINDS);
    r := Drifts(drifts);
    assert forall d :: d in drifts <==> ManifestDrift(d, e, a);
    if drifts != [] { assert drifts[0] in drifts; }
  }

  // ---------------------------------------------------------------- sound and complete

  ghost predicate TableConforms(spec: TableSpec, got: TableSpec) {
    && spec.engine == got.engine && spec.collation == got.collation
    && NamedConforms(spec.columns, got.columns) && NamedConforms(spec.indexes, got.indexes) && NamedConforms(spec.foreignKeys, got.foreignKeys)
  }

  ghost predicate Conforms(e: Manifest, a: Manifest) {
    && e.migrations == a.migrations
    && (forall n :: n in e.tables ==> n in a.tables && (n in BOOKKEEPING || TableConforms(e.tables[n], a.tables[n])))
    && (forall n :: n in a.tables ==> n in e.tables || n in INHERITED || n in e.allowedExtraTables)
    && NamedConforms(e.triggers, a.triggers)
  }

  /** What the release demands: equal migrations, triggers and tables, every extra table allowed. */
  ghost predicate Matches(e: Manifest, a: Manifest) {
    && e.migrations == a.migrations && e.triggers == a.triggers
    && (forall n :: n in e.tables ==> n in a.tables && (n in BOOKKEEPING || e.tables[n] == a.tables[n]))
    && (forall n :: n in a.tables && n !in e.tables ==> n in e.allowedExtraTables)
  }

  /** The part of `a` the comparison can see: extras with inherited names are overlooked. */
  function VisibleNamed<T>(e: map<string, T>, a: map<string, T>): map<string, T> {
    map n | n in a && (n in e || n !in INHERITED) :: a[n]
  }

  function VisibleTable(spec: TableSpec, got: TableSpec): TableSpec {
    TableSpec(got.engine, got.collation, VisibleNamed(spec.columns, got.columns),
              VisibleNamed(spec.indexes, got.indexes), VisibleNamed(spec.foreignKeys, got.foreignKeys))
  }

  function Visible(e: Manifest, a: Manifest): Manifest {
    var tables := VisibleNamed(e.tables, a.tables);
    a.(tables := map n | n in tables :: if n in e.tables then VisibleTable(e.tables[n], tables[n]) else tables[n],
       triggers := VisibleNamed(e.triggers, a.triggers))
  }

  lemma {:induction false} NamedConformsIff<T>(e: map<string, T>, a: map<string, T>)
    ensures NamedConforms(e, a) <==> VisibleNamed(e, a) == e
  {
    var v := VisibleNamed(e, a);
    if NamedConforms(e, a) {
      assert v.Keys == e.Keys;
      assert v == e;
    }
    if v == e {
      forall n | n in e ensures n in a && e[n] == a[n] { assert n in v; }
      forall n | n in a ensures n in e || n in INHERITED { assert n in v || n in INHERITED; }
    }
  }

  lemma {:induction false} TableConformsIff(spec: TableSpec, got: TableSpec)
    ensures TableConforms(spec, got) <==> spec == VisibleTable(spec, got)
  {
    hide VisibleNamed, NamedConforms;
    NamedConformsIff(spec.columns, got.columns);
    NamedConformsIff(spec.indexes, got.indexes);
    NamedConformsIff(spec.foreignKeys, got.foreignKeys);
  }

  lemma {:induction false} ConformsIff(e: Manifest, a: Manifest)
    ensures Conforms(e, a) <==> Matches(e, Visible(e, a))
  {
    NamedConformsIff(e.triggers, a.triggers);
    hide NamedConforms, TableConforms, VisibleTable;
    forall n | n in e.tables && n in a.tables ensures TableConforms(e.tables[n], a.tables[n]) <==> e.tables[n] == VisibleTable(e.tables[n], a.tables[n]) {
      TableConformsIff(e.tables[n], a.tables[n]);
    }
    var v := Visible(e, a);
    assert forall n :: n in v.tables <==> n in a.tables && (n in e.tables || n !in INHERITED);
    assert forall n :: n in v.tables && n in e.tables ==> v.tables[n] == VisibleTable(e.tables[n], a.tables[n]);
  }

  lemma {:induction false} NoTableDriftIff(name: string, spec: TableSpec, got: TableSpec)
    ensures (forall d :: !TableDrift(d, name, spec, got)) <==> TableConforms(spec, got)
  {
    NoNamedDriftIff(name + ".", spec.columns, got.columns, COLUMN_KINDS);
    NoNamedDriftIff(name + ".", spec.indexes, got.indexes, INDEX_KINDS);
    NoNamedDriftIff(name + ".", spec.foreignKeys, got.foreignKeys, FOREIGN_KINDS);
    hide NamedDrift, NamedConforms;
    if forall d :: !TableDrift(d, name, spec, got) {
      assert !TableDrift(Drift(ChangedTable, name), name, spec, got);
      forall d ensures !NamedDrift(d, name + ".", spec.columns, got.columns, COLUMN_KINDS) { assert !TableDrift(d, name, spec, got); }
      forall d ensures !NamedDrift(d, name + ".", spec.indexes, got.indexes, INDEX_KINDS) { assert !TableDrift(d, name, spec, got); }
      forall d ensures !NamedDrift(d, name + ".", spec.foreignKeys, got.foreignKeys, FOREIGN_KINDS) { assert !TableDrift(d, name, spec, got); }
    }
  }

  lemma {:induction false} NoManifestDriftIff(e: Manifest, a: Manifest)
    ensures (forall d :: !ManifestDrift(d, e, a)) <==> Conforms(e, a)
  {
    NoNamedDriftIff("", e.triggers, a.triggers, TRIGGER_KINDS);
    forall n | n in e.tables && n in a.tables
      ensures (forall d :: !TableDrift(d, n, e.tables[n], a.tables[n])) <==> TableConforms(e.tables[n], a.tables[n])
    {
      NoTableDriftIff(n, e.tables[n], a.tables[n]);
    }
    hide NamedDrift, NamedConforms, TableDrift, TableConforms;
    if forall d :: !ManifestDrift(d, e, a) {
      assert !ManifestDrift(Drift(Migrations, "knex_migrations"), e, a);
      forall n | n in e.tables ensures n in a.tables && (n in BOOKKEEPING || TableConforms(e.tables[n], a.tables[n])) {
        assert !ManifestDrift(Drift(MissingTable, n), e, a);
        if n !in BOOKKEEPING {
          forall d ensures !TableDrift(d, n, e.tables[n], a.tables[n]) { assert !ManifestDrift(d, e, a); }
        }
      }
      forall n | n in a.tables ensures n in e.tables || n in INHERITED || n in e.allowedExtraTables {
        assert !ManifestDrift(Drift(ExtraTable, n), e, a);
      }
      forall d ensures !NamedDrift(d, "", e.triggers, a.triggers, TRIGGER_KINDS) { assert !ManifestDrift(d, e, a); }
    }
  }

  /** No drift is reported exactly when what the comparison sees matches the release. */
  lemma {:induction false} EmptyDiffIff(e: Manifest, a: Manifest)
    ensures (!Stumbles(e, a) && forall d :: !ManifestDrift(d, e, a)) <==> Matches(e, Visible(e, a))
  {
    hide ManifestDrift, Matches, Visible;
    NoManifestDriftIff(e, a);
    ConformsIff(e, a);
  }

  /** No object outside the manifest carries a name that every plain object answers to. */
  ghost predicate NoInheritedExtras<T>(e: map<string, T>, a: map<string, T>) {
    forall n :: n in a && n !in e ==> n !in INHERITED
  }

  ghost predicate OrdinaryNames(e: Manifest, a: Manifest) {
    && NoInheritedExtras(e.tables, a.tables) && NoInheritedExtras(e.triggers, a.triggers)
    && forall n :: n in e.tables && n in a.tables ==>
         && NoInheritedExtras(e.tables[n].columns, a.tables[n].columns)
         && NoInheritedExtras(e.tables[n].indexes, a.tables[n].indexes)
         && NoInheritedExtras(e.tables[n].foreignKeys, a.tables[n].foreignKeys)
  }

  lemma {:induction false} AllVisible<T>(e: map<string, T>, a: map<string, T>)
    requires NoInheritedExtras(e, a)
    ensures VisibleNamed(e, a) == a
  {
  }

  /** With ordinary names the comparison is sound and complete. */
  lemma {:induction false} OrdinaryDiffIsExact(e: Manifest, a: Manifest)
    requires OrdinaryNames(e, a)
    ensures (!Stumbles(e, a) && forall d :: !ManifestDrift(d, e, a)) <==> Matches(e, a)
  {
    EmptyDiffIff(e, a);
    AllVisible(e.tables, a.tables);
    AllVisible(e.triggers, a.triggers);
    hide ManifestDrift, VisibleNamed, Matches;
    forall n | n in e.tables && n in a.tables ensures VisibleTable(e.tables[n], a.tables[n]) == a.tables[n] {
      AllVisible(e.tables[n].columns, a.tables[n].columns);
      AllVisible(e.tables[n].indexes, a.tables[n].indexes);
      AllVisible(e.tables[n].foreignKeys, a.tables[n].foreignKeys);
    }
    assert Visible(e, a).tables == a.tables;
    assert Visible(e, a) == a;
  }

  lemma {:induction false} HiddenExtrasIff<T>(e: map<string, T>, a: map<string, T>)
    requires VisibleNamed(e, a) == e
    ensures e == a <==> NoInheritedExtras(e, a)
  {
    assert forall n :: n in e ==> n in VisibleNamed(e, a);
    if NoInheritedExtras(e, a) { AllVisible(e, a); }
  }

  /** Every extra the comparison overlooks is one the release permits anyway. */
  ghost predicate HarmlessExtras(e: Manifest, a: Manifest) {
    && (forall n :: n in a.tables && n !in e.tables && n in INHERITED ==> n in e.allowedExtraTables)
    && NoInheritedExtras(e.triggers, a.triggers)
    && forall n :: n in e.tables && n in a.tables && n !in BOOKKEEPING ==> TableSees(e.tables[n], a.tables[n])
  }

  /** No extra column, index or foreign key of the table is overlooked. */
  ghost predicate TableSees(spec: TableSpec, got: TableSpec) {
    NoInheritedExtras(spec.columns, got.columns) && NoInheritedExtras(spec.indexes, got.indexes) && NoInheritedExtras(spec.foreignKeys, got.foreignKeys)
  }

  lemma {:induction false} TableHiddenIff(spec: TableSpec, got: TableSpec)
    requires spec == VisibleTable(spec, got)
    ensures spec == got <==> TableSees(spec, got)
  {
    hide VisibleNamed;
    HiddenExtrasIff(spec.columns, got.columns);
    HiddenExtrasIff(spec.indexes, got.indexes);
    HiddenExtrasIff(spec.foreignKeys, got.foreignKeys);
  }

  /** An empty diff tells the truth exactly when the overlooked extras are harmless. */
  lemma {:induction false} EmptyDiffIsTrueIff(e: Manifest, a: Manifest)
    requires !Stumbles(e, a) && forall d :: !ManifestDrift(d, e, a)
    ensures Matches(e, a) <==> HarmlessExtras(e, a)
  {
    hide ManifestDrift, NoInheritedExtras, TableSees;
    EmptyDiffIff(e, a);
    SeenTriggers(e, a);
    forall n | n in e.tables && n !in BOOKKEEPING ensures n in a.tables && (e.tables[n] == a.tables[n] <==> TableSees(e.tables[n], a.tables[n])) {
      SeenTable(e, a, n);
    }
    SeenExtras(e, a);
    hide Visible;
  }

  lemma {:induction false} SeenTriggers(e: Manifest, a: Manifest)
    requires Matches(e, Visible(e, a))
    ensures e.migrations == a.migrations && (e.triggers == a.triggers <==> NoInheritedExtras(e.triggers, a.triggers))
  {
    HiddenExtrasIff(e.triggers, a.triggers);
  }

  lemma {:induction false} SeenTable(e: Manifest, a: Manifest, n: string)
    requires Matches(e, Visible(e, a)) && n in e.tables && n !in BOOKKEEPING
    ensures n in a.tables && (e.tables[n] == a.tables[n] <==> TableSees(e.tables[n], a.tables[n]))
  {
    var v := Visible(e, a);
    assert n in v.tables && v.tables[n] == VisibleTable(e.tables[n], a.tables[n]);
    TableHiddenIff(e.tables[n], a.tables[n]);
  }

  lemma {:induction false} SeenExtras(e: Manifest, a: Manifest)
    requires Matches(e, Visible(e, a))
    ensures forall n :: n in e.tables ==> n in a.tables
    ensures forall n :: n in a.tables && n !in e.tables && n !in INHERITED ==> n in e.allowedExtraTables
  {
    var v := Visible(e, a);
    forall n | n in e.tables ensures n in a.tables { assert n in v.tables; }
    forall n | n in a.tables && n !in e.tables && n !in INHERITED ensures n in e.allowedExtraTables { assert n in v.tables; }
  }

  /** A stray trigger called "constructor" goes unreported. */
  lemma {:induction false} InheritedExtraIsOverlooked(t: TriggerSpec)
    ensures var e, a := Manifest([], [], map[], map[]), Manifest([], [], map[], map["constructor" := t]);
            !Stumbles(e, a) && (forall d :: !ManifestDrift(d, e, a)) && !Matches(e, a)
  {
    var e, a := Manifest([], [], map[], map[]), Manifest([], [], map[], map["constructor" := t]);
    EmptyDiffIff(e, a);
    assert Visible(e, a) == e by { assert VisibleNamed(e.triggers, a.triggers) == map[]; assert VisibleNamed(e.tables, a.tables) == map[]; }
    assert "constructor" in a.triggers;
  }
}
