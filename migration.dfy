/** The startup migration of the `transferts` table: which columns it must add, the
    ALTER statements it issues, and what executing them does to the table's schema.
    A schema is the set of column names; `None` is a table that does not exist. */
module Migration {
  import opened Payload

  datatype Column = Column(name: string, sqlType: string)

  /** The columns the handlers need, in the order the procedure checks them. */
  const Required: seq<Column> := [Column("animal_type", "VARCHAR(20)"), Column("animal_id", "INTEGER"), Column("chien_id", "INTEGER")]

  const RequiredNames: set<string> := {"animal_type", "animal_id", "chien_id"}

  function Names(cs: seq<Column>): set<string>
  {
    set i | 0 <= i < |cs| :: cs[i].name
  }

  predicate DistinctNames(cs: seq<Column>)
  {
    forall i, j :: 0 <= i < j < |cs| ==> cs[i].name != cs[j].name
  }

  lemma NamesAppend(a: seq<Column>, b: seq<Column>)
    ensures Names(a + b) == Names(a) + Names(b)
  {
    var ab := a + b;
    forall n | n in Names(ab) ensures n in Names(a) + Names(b) {
      var i :| 0 <= i < |ab| && ab[i].name == n;
      if i >= |a| { assert b[i - |a|].name == n; }
    }
    forall n | n in Names(a) + Names(b) ensures n in Names(ab) {
      if n in Names(a) {
        var i :| 0 <= i < |a| && a[i].name == n;
        assert ab[i].name == n;
      } else {
        var i :| 0 <= i < |b| && b[i].name == n;
        assert ab[|a| + i].name == n;
      }
    }
  }

  lemma NamesSingleton(c: Column)
    ensures Names([c]) == {c.name}
  {
    assert [c][0].name == c.name;
  }

  /** The list `missing`: each required column the table lacks, once, in checking order. */
  function Missing(existing: set<string>): (m: seq<Column>)
    ensures Names(m) == RequiredNames - existing
    ensures DistinctNames(m)
    ensures forall i :: 0 <= i < |m| ==> m[i] in Required
    ensures m == [] <==> RequiredNames <= existing
  {
    var m1 := if "animal_type" !in existing then [Column("animal_type", "VARCHAR(20)")] else [];
    var m2 := if "animal_id" !in existing then [Column("animal_id", "INTEGER")] else [];
    var m3 := if "chien_id" !in existing then [Column("chien_id", "INTEGER")] else [];
    NamesAppend(m1, m2);
    NamesAppend(m1 + m2, m3);
    NamesSingleton(Column("animal_type", "VARCHAR(20)"));
    NamesSingleton(Column("animal_id", "INTEGER"));
    NamesSingleton(Column("chien_id", "INTEGER"));
    m1 + m2 + m3
  }

  /** One ALTER TABLE transferts ADD COLUMN statement; PostgreSQL's carries IF NOT EXISTS. */
  datatype Alter = Alter(column: Column, ifNotExists: bool)

  function AltersFor(cs: seq<Column>, postgres: bool): (a: seq<Alter>)
    ensures |a| == |cs|
    ensures forall i :: 0 <= i < |a| ==> a[i] == Alter(cs[i], postgres)
  {
    seq(|cs|, i requires 0 <= i < |cs| => Alter(cs[i], postgres))
  }

  /** What the database does with one statement: a plain ADD COLUMN of a column that
      already exists fails (duplicate column); IF NOT EXISTS makes it a no-op. */
  function Execute(columns: set<string>, a: Alter): (r: Option<set<string>>)
    ensures r.None? <==> !a.ifNotExists && a.column.name in columns
    ensures r.Some? ==> r.value == columns + {a.column.name}
  {
    if !a.ifNotExists && a.column.name in columns then None
    else Some(columns + {a.column.name})
  }

  /** Executes statements in order; the first failure aborts. */
  function Replay(columns: set<string>, log: seq<Alter>): Option<set<string>>
    decreases |log|
  {
    if log == [] then Some(columns)
    else
      match Execute(columns, log[0])
      case None => None
      case Some(next) => Replay(next, log[1..])
  }

  /** Walking `missing` in order: the next column is absent from the table as extended so
      far, adding it extends that table by its name, and issuing it extends the log by one. */
  lemma MissingStep(existing: set<string>, i: int, postgres: bool)
    requires 0 <= i < |Missing(existing)|
    ensures var m := Missing(existing);
      && m[i].name !in existing + Names(m[..i])
      && existing + Names(m[..i + 1]) == existing + Names(m[..i]) + {m[i].name}
      && AltersFor(m[..i + 1], postgres) == AltersFor(m[..i], postgres) + [Alter(m[i], postgres)]
  {
    var m := Missing(existing);
    assert m[i].name in Names(m);
    forall j | 0 <= j < i ensures m[..i][j].name != m[i].name {
      assert m[..i][j] == m[j];
    }
    assert m[..i + 1] == m[..i] + [m[i]];
    NamesAppend(m[..i], [m[i]]);
    NamesSingleton(m[i]);
  }

  /** Before the walk the table is as found; after it, every required column is there. */
  lemma MissingEnds(existing: set<string>)
    ensures var m := Missing(existing);
      && existing + Names(m[..0]) == existing
      && existing + Names(m[..|m|]) == existing + RequiredNames
  {
    var m := Missing(existing);
    assert m[..0] == [];
    assert m[..|m|] == m;
  }

  /** The statements the procedure issues against a schema. */
  function Plan(schema: Option<set<string>>, postgres: bool): seq<Alter>
  {
    match schema
    case None => []
    case Some(existing) => AltersFor(Missing(existing), postgres)
  }

  /** The schema the procedure leaves behind. */
  function Migrated(schema: Option<set<string>>): (r: Option<set<string>>)
    ensures schema.None? <==> r.None?
  {
    match schema
    case None => None
    case Some(existing) => Some(existing + RequiredNames)
  }

  /** Adding distinct, absent columns one at a time never fails, on either dialect. */
  lemma {:induction false} ReplayAbsentColumns(columns: set<string>, cs: seq<Column>, postgres: bool)
    requires DistinctNames(cs)
    requires forall i :: 0 <= i < |cs| ==> cs[i].name !in columns
    ensures Replay(columns, AltersFor(cs, postgres)) == Some(columns + Names(cs))
    decreases |cs|
  {
    var log := AltersFor(cs, postgres);
    if cs == [] {
      assert log == [];
      assert Names(cs) == {};
      assert Replay(columns, log) == Some(columns);
      assert columns + Names(cs) == columns;
    } else {
      var next := columns + {cs[0].name};
      assert Execute(columns, log[0]) == Some(next);
      assert Replay(columns, log) == Replay(next, log[1..]);
      assert log[1..] == AltersFor(cs[1..], postgres);
      forall i | 0 <= i < |cs[1..]| ensures cs[1..][i].name !in next {
        assert cs[1..][i] == cs[i + 1];
      }
      ReplayAbsentColumns(next, cs[1..], postgres);
      assert cs == [cs[0]] + cs[1..];
      NamesAppend([cs[0]], cs[1..]);
      NamesSingleton(cs[0]);
      assert Replay(next, log[1..]) == Some(next + Names(cs[1..]));
      assert next + Names(cs[1..]) == columns + Names(cs);
    }
  }

  /** The statements issued execute without error and produce the migrated schema:
      afterwards all three columns exist and every earlier column is still there. */
  lemma PlanReachesMigrated(schema: Option<set<string>>, postgres: bool)
    requires schema.Some?
    ensures Replay(schema.value, Plan(schema, postgres)) == Migrated(schema)
    ensures RequiredNames <= Migrated(schema).value
    ensures schema.value <= Migrated(schema).value
    ensures Migrated(schema).value - schema.value <= RequiredNames
  {
    var m := Missing(schema.value);
    forall i | 0 <= i < |m| ensures m[i].name !in schema.value {
      assert m[i].name in Names(m);
    }
    ReplayAbsentColumns(schema.value, m, postgres);
    assert schema.value + Names(m) == schema.value + RequiredNames;
  }

  /** A missing table is left missing and no statement is issued. */
  lemma AbsentTableUntouched(postgres: bool)
    ensures Plan(None, postgres) == [] && Migrated(None) == None
  {
  }

  /** Running the procedure a second time issues no statement and changes nothing. */
  lemma MigrationIdempotent(schema: Option<set<string>>, postgres: bool)
    ensures Migrated(Migrated(schema)) == Migrated(schema)
    ensures Plan(Migrated(schema), postgres) == []
  {
  }

  /** Only missing columns are added: no statement names a column the table already has. */
  lemma PlanAddsOnlyMissing(schema: Option<set<string>>, postgres: bool, i: int)
    requires schema.Some? && 0 <= i < |Plan(schema, postgres)|
    ensures Plan(schema, postgres)[i].column.name !in schema.value
    ensures Plan(schema, postgres)[i].column in Required
  {
  }
}
