/** The start-up schema migration of backend/database.py.

    The inspector that the loop asks is SQLAlchemy's, which keeps its first answer for a table: two
    entries for one table both see the columns of before the run. An ALTER TABLE that adds a column
    the table already has is an error of the database, which ends the run. */
module SchemaMigration {
  type Schema = map<string, set<string>>

  datatype TableMigration = TableMigration(table: string, columns: seq<string>)

  /** One ALTER TABLE ... ADD COLUMN: the table and the column. */
  type Statement = (string, string)

  /** The columns still missing, each at its first mention. */
  function Missing(columns: seq<string>, existing: set<string>): seq<string>
    decreases |columns|
  {
    if columns == [] then []
    else if columns[0] in existing then Missing(columns[1..], existing)
    else [columns[0]] + Missing(columns[1..], existing + {columns[0]})
  }

  function Tagged(table: string, columns: seq<string>): seq<Statement> {
    seq(|columns|, i requires 0 <= i < |columns| => (table, columns[i]))
  }

  function PlanOf(schema: Schema, m: TableMigration): seq<Statement> {
    if m.table in schema then Tagged(m.table, Missing(m.columns, schema[m.table])) else []
  }

  function Planned(schema: Schema, migrations: seq<TableMigration>): seq<Statement> {
    if migrations == [] then [] else PlanOf(schema, migrations[0]) + Planned(schema, migrations[1..])
  }

  function Added(table: string, log: seq<Statement>): set<string> {
    set i | 0 <= i < |log| && log[i].0 == table :: log[i].1
  }

  /** The schema once every statement of `log` has run. */
  function Altered(schema: Schema, log: seq<Statement>): Schema {
    map t | t in schema :: schema[t] + Added(t, log)
  }

  ghost predicate NoRepeat(log: seq<Statement>) {
    forall i, j :: 0 <= i < j < |log| ==> log[i] != log[j]
  }

  ghost predicate Lists(m: TableMigration, s: Statement) {
    m.table == s.0 && s.1 in m.columns
  }

  ghost predicate Missed(schema: Schema, s: Statement) {
    s.0 in schema && s.1 !in schema[s.0]
  }

  lemma {:induction false} MissingExact(columns: seq<string>, existing: set<string>)
    ensures forall c :: c in Missing(columns, existing) <==> c in columns && c !in existing
    ensures forall i, j :: 0 <= i < j < |Missing(columns, existing)| ==>
      Missing(columns, existing)[i] != Missing(columns, existing)[j]
    decreases |columns|
  {
    if columns != [] {
      MissingExact(columns[1..], existing);
      MissingExact(columns[1..], existing + {columns[0]});
      var rest := Missing(columns[1..], existing + {columns[0]});
      forall i | 0 <= i < |rest| ensures rest[i] != columns[0] { assert rest[i] in rest; }
    }
  }

  lemma {:induction false} PlanOfExact(schema: Schema, m: TableMigration, s: Statement)
    ensures s in PlanOf(schema, m) <==> Missed(schema, s) && Lists(m, s)
    ensures NoRepeat(PlanOf(schema, m))
  {
    if m.table in schema {
      var columns := Missing(m.columns, schema[m.table]);
      MissingExact(m.columns, schema[m.table]);
      if s.0 == m.table && s.1 in columns {
        var i :| 0 <= i < |columns| && columns[i] == s.1;
        assert PlanOf(schema, m)[i] == s;
      }
    }
  }

  /** The statements are exactly the missing columns of the tables that are there. */
  lemma {:induction false} PlannedExact(schema: Schema, migrations: seq<TableMigration>, s: Statement)
    ensures s in Planned(schema, migrations) <==>
      Missed(schema, s) && exists m :: m in migrations && Lists(m, s)
    decreases |migrations|
  {
    if migrations != [] {
      PlanOfExact(schema, migrations[0], s);
      PlannedExact(schema, migrations[1..], s);
      assert forall m :: m in migrations <==> m == migrations[0] || m in migrations[1..];
    }
  }

  /** The statements come in the order of the entries, those of an entry in the order of its columns. */
  lemma {:induction false} PlannedConcat(schema: Schema, a: seq<TableMigration>, b: seq<TableMigration>)
    ensures Planned(schema, a + b) == Planned(schema, a) + Planned(schema, b)
    decreases |a|
  {
    if a == [] {
      assert a + b == b;
    } else {
      assert (a + b)[1..] == a[1..] + b;
      PlannedConcat(schema, a[1..], b);
    }
  }

  lemma {:induction false} MissingConcat(a: seq<string>, b: seq<string>, existing: set<string>)
    ensures Missing(a + b, existing) == Missing(a, existing) + Missing(b, existing + Names(a))
    decreases |a|
  {
    if a == [] {
      assert a + b == b && existing + Names([]) == existing;
    } else {
      assert (a + b)[1..] == a[1..] + b;
      var more := existing + {a[0]};
      MissingConcat(a[1..], b, more);
      assert more + Names(a[1..]) == existing + Names(a);
      if a[0] in existing { assert more == existing; }
    }
  }

  function Names(columns: seq<string>): set<string> {
    set c | c in columns
  }

  ghost predicate BothList(schema: Schema, migrations: seq<TableMigration>, i: nat, j: nat, s: Statement) {
    i < j < |migrations| && Missed(schema, s) && Lists(migrations[i], s) && Lists(migrations[j], s)
  }

  /** Two entries ask for the same missing column of the same table. */
  ghost predicate Overlap(schema: Schema, migrations: seq<TableMigration>) {
    exists i: nat, j: nat, s: Statement :: BothList(schema, migrations, i, j, s)
  }

  lemma {:induction false} NoRepeatAppend(a: seq<Statement>, b: seq<Statement>)
    ensures NoRepeat(a + b) <==> NoRepeat(a) && NoRepeat(b) && forall s :: s in a ==> s !in b
  {
    if NoRepeat(a + b) {
      forall i, j | 0 <= i < j < |a| ensures a[i] != a[j] { assert (a + b)[i] != (a + b)[j]; }
      forall i, j | 0 <= i < j < |b| ensures b[i] != b[j] { assert (a + b)[|a| + i] != (a + b)[|a| + j]; }
      forall s | s in a ensures s !in b {
        var i :| 0 <= i < |a| && a[i] == s;
        assert forall j :: 0 <= j < |b| ==> (a + b)[i] != (a + b)[|a| + j] == b[j];
      }
    }
    if NoRepeat(a) && NoRepeat(b) && forall s :: s in a ==> s !in b {
      forall i, j | 0 <= i < j < |a + b| ensures (a + b)[i] != (a + b)[j] {
        if i < |a| <= j { assert a[i] in a && b[j - |a|] in b; }
      }
    }
  }

  /** No statement is planned twice exactly when no two entries overlap. */
  lemma {:induction false} RepeatsIff(schema: Schema, migrations: seq<TableMigration>)
    ensures NoRepeat(Planned(schema, migrations)) <==> !Overlap(schema, migrations)
    decreases |migrations|
  {
    if migrations != [] {
      var first, rest := migrations[0], migrations[1..];
      RepeatsIff(schema, rest);
      NoRepeatAppend(PlanOf(schema, first), Planned(schema, rest));
      forall s: Statement ensures s in PlanOf(schema, first) <==> Missed(schema, s) && Lists(first, s) {
        PlanOfExact(schema, first, s);
      }
      forall s: Statement ensures s in Planned(schema, rest) <==>
          Missed(schema, s) && exists m :: m in rest && Lists(m, s) {
        PlannedExact(schema, rest, s);
      }
      PlanOfExact(schema, first, ("", ""));
      OverlapCons(schema, migrations);
    }
  }

  lemma {:induction false} OverlapCons(schema: Schema, migrations: seq<TableMigration>)
    requires migrations != []
    ensures Overlap(schema, migrations) <==>
      || Overlap(schema, migrations[1..])
      || exists s: Statement, m :: Missed(schema, s) && Lists(migrations[0], s) && m in migrations[1..] && Lists(m, s)
  {
    var rest := migrations[1..];
    if Overlap(schema, migrations) {
      var i: nat, j: nat, s :| BothList(schema, migrations, i, j, s);
      assert rest[j - 1] == migrations[j];
      if i > 0 { assert BothList(schema, rest, i - 1, j - 1, s); }
    }
    if Overlap(schema, rest) {
      var i: nat, j: nat, s :| BothList(schema, rest, i, j, s);
      assert BothList(schema, migrations, i + 1, j + 1, s);
    }
    if s: Statement, m :| Missed(schema, s) && Lists(migrations[0], s) && m in rest && Lists(m, s) {
      var j :| 0 <= j < |rest| && rest[j] == m;
      assert BothList(schema, migrations, 0, j + 1, s);
    }
  }

  lemma {:induction false} DistinctTablesDoNotOverlap(schema: Schema, migrations: seq<TableMigration>)
    requires forall i, j :: 0 <= i < j < |migrations| ==> migrations[i].table != migrations[j].table
    ensures NoRepeat(Planned(schema, migrations))
  {
    RepeatsIff(schema, migrations);
  }

  /** After the planned statements a second run has nothing to do. */
  lemma {:induction false} SecondRunIsQuiet(schema: Schema, migrations: seq<TableMigration>)
    ensures Planned(Altered(schema, Planned(schema, migrations)), migrations) == []
  {
    var log := Planned(schema, migrations);
    var later := Altered(schema, log);
    forall s: Statement ensures s !in Planned(later, migrations) {
      PlannedExact(later, migrations, s);
      PlannedExact(schema, migrations, s);
      AddedExact(log, s);
    }
    EmptyOrInhabited(Planned(later, migrations));
  }

  lemma {:induction false} EmptyOrInhabited(log: seq<Statement>)
    ensures log == [] || exists s :: s in log
  {
    if log != [] { assert log[0] in log; }
  }

  lemma {:induction false} AddedExact(log: seq<Statement>, s: Statement)
    ensures s.1 in Added(s.0, log) <==> s in log
  {
    if s in log { var i :| 0 <= i < |log| && log[i] == s; }
  }

  class Connection {
    var tables: Schema
    var log: seq<Statement>

    constructor (tables: Schema)
      ensures this.tables == tables && log == []
    {
      this.tables, log := tables, [];
    }

    /** `ok` is false where the database refuses a column the table already has. */
    method AddColumn(table: string, column: string) returns (ok: bool)
      requires table in tables
      modifies this
      ensures ok <==> column !in old(tables)[table]
      ensures ok ==> log == old(log) + [(table, column)]
                     && tables == old(tables)[table := old(tables)[table] + {column}]
      ensures !ok ==> log == old(log) && tables == old(tables)
    {
      ok := column !in tables[table];
      if ok {
        tables := tables[table := tables[table] + {column}];
        log := log + [(table, column)];
      }
    }

    /** The migration succeeds exactly when no two entries overlap, and then runs exactly the plan. */
    method ApplyMigrations(migrations: seq<TableMigration>) returns (ok: bool)
      requires log == []
      modifies this
      ensures ok <==> !Overlap(old(tables), migrations)
      ensures ok ==> log == Planned(old(tables), migrations)
      ensures log <= Planned(old(tables), migrations)
      ensures tables == Altered(old(tables), log)
    {
      RepeatsIff(tables, migrations);
      ok := RunPlan(migrations);
    }

    method RunPlan(migrations: seq<TableMigration>) returns (ok: bool)
      requires log == []
      modifies this
      ensures ok <==> NoRepeat(Planned(old(tables), migrations))
      ensures ok ==> log == Planned(old(tables), migrations)
      ensures log <= Planned(old(tables), migrations)
      ensures tables == Altered(old(tables), log)
    {
      var inspected := tables;
      ghost var plan := Planned(inspected, migrations);
      NothingAltered(inspected);
      assert migrations[0..] == migrations && [] + plan == plan;
      var i := 0;
      while i < |migrations|
        invariant 0 <= i <= |migrations|
        invariant log + Planned(inspected, migrations[i..]) == plan
        invariant NoRepeat(log)
        invariant tables == Altered(inspected, log)
      {
        PlannedStep(inspected, migrations, i, log);
        if migrations[i].table in inspected {
          ok := ApplyTable(migrations[i], inspected, Planned(inspected, migrations[i + 1..]), plan);
          if !ok {
            return;
          }
        }
        i := i + 1;
      }
      assert log + [] == log;
      ok := true;
    }

    method ApplyTable(m: TableMigration, inspected: Schema, ghost rest: seq<Statement>, ghost plan: seq<Statement>)
      returns (ok: bool)
      requires m.table in inspected && tables == Altered(inspected, log) && NoRepeat(log)
      requires log + (Tagged(m.table, Missing(m.columns, inspected[m.table])) + rest) == plan
      modifies this
      ensures tables == Altered(inspected, log) && NoRepeat(log) && log <= plan
      ensures ok ==> log + rest == plan
      ensures !ok ==> !NoRepeat(plan)
    {
      var existing := inspected[m.table];
      var j := 0;
      while j < |m.columns|
        invariant 0 <= j <= |m.columns|
        invariant log + (Tagged(m.table, Missing(m.columns[j..], existing)) + rest) == plan
        invariant inspected[m.table] <= existing
        invariant tables == Altered(inspected, log) && NoRepeat(log)
      {
        var column := m.columns[j];
        TaggedStep(m, j, existing, log, rest);
        if column !in existing {
          AlteredSnoc(inspected, log, (m.table, column));
          var done := AddColumn(m.table, column);
          if !done {
            RepeatedIn(log, (m.table, column), plan);
            return false;
          }
          existing := existing + {column};
        }
        j := j + 1;
      }
      ok := true;
    }
  }

  lemma {:induction false} TaggedStep(m: TableMigration, j: nat, existing: set<string>, log: seq<Statement>,
                                      rest: seq<Statement>)
    requires j < |m.columns|
    ensures var c := m.columns[j];
      log + (Tagged(m.table, Missing(m.columns[j..], existing)) + rest) ==
      if c in existing then log + (Tagged(m.table, Missing(m.columns[j + 1..], existing)) + rest)
      else log + [(m.table, c)] + (Tagged(m.table, Missing(m.columns[j + 1..], existing + {c})) + rest)
  {
    assert m.columns[j..][1..] == m.columns[j + 1..];
    var c := m.columns[j];
    var later := Missing(m.columns[j + 1..], existing + {c});
    assert Tagged(m.table, [c] + later) == [(m.table, c)] + Tagged(m.table, later);
  }

  lemma {:induction false} PlannedStep(schema: Schema, migrations: seq<TableMigration>, i: nat, log: seq<Statement>)
    requires i < |migrations|
    ensures log + Planned(schema, migrations[i..]) ==
      if migrations[i].table !in schema then log + Planned(schema, migrations[i + 1..])
      else log + (PlanOf(schema, migrations[i]) + Planned(schema, migrations[i + 1..]))
  {
    assert migrations[i..][1..] == migrations[i + 1..];
  }

  lemma {:induction false} AlteredSnoc(schema: Schema, log: seq<Statement>, s: Statement)
    requires s.0 in schema
    ensures var before := Altered(schema, log);
      Altered(schema, log + [s]) == before[s.0 := before[s.0] + {s.1}]
    ensures s.1 in Altered(schema, log)[s.0] <==> s.1 in schema[s.0] || s in log
    ensures NoRepeat(log) && s !in log ==> NoRepeat(log + [s])
  {
    var before, later := Altered(schema, log), Altered(schema, log + [s]);
    forall t | t in schema ensures later[t] == before[s.0 := before[s.0] + {s.1}][t] {
      AddedSnoc(t, log, s);
    }
    assert later == before[s.0 := before[s.0] + {s.1}];
    AddedExact(log, s);
  }

  lemma {:induction false} NothingAltered(schema: Schema)
    ensures Altered(schema, []) == schema
  {
    forall t | t in schema ensures Altered(schema, [])[t] == schema[t] { assert Added(t, []) == {}; }
  }

  lemma {:induction false} AddedSnoc(t: string, log: seq<Statement>, s: Statement)
    ensures Added(t, log + [s]) == Added(t, log) + if t == s.0 then {s.1} else {}
  {
    var more := log + [s];
    forall c | c in Added(t, log) ensures c in Added(t, more) {
      var i :| 0 <= i < |log| && log[i].0 == t && log[i].1 == c;
      assert more[i] == log[i];
    }
    assert more[|log|] == s;
  }

  lemma {:induction false} RepeatedIn(log: seq<Statement>, s: Statement, plan: seq<Statement>)
    requires s in log && log + [s] <= plan
    ensures !NoRepeat(plan)
  {
    var i :| 0 <= i < |log| && log[i] == s;
    assert plan[i] == s && plan[|log|] == s;
  }
}
