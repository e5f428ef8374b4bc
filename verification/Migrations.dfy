/** Additive, restartable schema migrations (cloudhelm/db.py). A start may stop between any
    two transactions; a later start resumes. */
module Migrations {
  type Columns = map<string, string>

  /** `columns` are (name, definition) pairs, as the items of a dictionary: names are distinct. */
  datatype Addition = Addition(table: string, columns: seq<(string, string)>)

  datatype Definition = Definition(version: string, additions: seq<Addition>)

  /** `added` is the history of executed `ADD COLUMN` statements. */
  datatype Schema = Schema(
    tables: map<string, Columns>, applied: set<string>, added: seq<(string, string)>)

  ghost predicate DistinctColumns(columns: seq<(string, string)>) {
    forall i, j :: 0 <= i < j < |columns| ==> columns[i].0 != columns[j].0
  }

  ghost predicate DistinctVersions(definitions: seq<Definition>) {
    forall i, j :: 0 <= i < j < |definitions| ==> definitions[i].version != definitions[j].version
  }

  ghost predicate WellFormed(definitions: seq<Definition>) {
    && DistinctVersions(definitions)
    && forall d :: d in definitions ==> forall a :: a in d.additions ==> DistinctColumns(a.columns)
  }

  // ---------------------------------------------------------------- what a start does

  function WithColumn(db: Schema, table: string, column: (string, string)): Schema {
    if table !in db.tables || column.0 in db.tables[table] then db
    else db.(tables := db.tables[table := db.tables[table][column.0 := column.1]],
             added := db.added + [(table, column.0)])
  }

  function WithColumns(db: Schema, table: string, columns: seq<(string, string)>): Schema {
    if columns == [] then db
    else WithColumn(WithColumns(db, table, columns[..|columns| - 1]), table, columns[|columns| - 1])
  }

  function WithAdditions(db: Schema, additions: seq<Addition>): Schema {
    if additions == [] then db
    else
      var last := additions[|additions| - 1];
      WithColumns(WithAdditions(db, additions[..|additions| - 1]), last.table, last.columns)
  }

  function Recorded(db: Schema, version: string): Schema {
    db.(applied := db.applied + {version})
  }

  /** The migrations of one start that is allowed `budget` transactions. */
  function Migrated(db: Schema, definitions: seq<Definition>, budget: nat): Schema
    decreases |definitions|
  {
    if definitions == [] || budget == 0 then db
    else
      var d, rest := definitions[0], definitions[1..];
      if d.version in db.applied then Migrated(db, rest, budget)
      else if budget == 1 then WithAdditions(db, d.additions)
      else Migrated(Recorded(WithAdditions(db, d.additions), d.version), rest, budget - 2)
  }

  /** `create_all` adds the model tables that do not exist and leaves the others alone. */
  function WithModels(db: Schema, models: map<string, Columns>): Schema {
    db.(tables := models + db.tables)
  }

  /** One start: the model tables, then the migrations. */
  function Started(db: Schema, models: map<string, Columns>, definitions: seq<Definition>, budget: nat): Schema {
    if budget == 0 then db else Migrated(WithModels(db, models), definitions, budget - 1)
  }

  /** A start that no stop interrupts. */
  function Completed(db: Schema, models: map<string, Columns>, definitions: seq<Definition>): Schema {
    Started(db, models, definitions, 1 + 2 * |definitions|)
  }

  function Restarted(db: Schema, models: map<string, Columns>, definitions: seq<Definition>, budgets: seq<nat>): Schema {
    if budgets == [] then db
    else Started(Restarted(db, models, definitions, budgets[..|budgets| - 1]), models, definitions, budgets[|budgets| - 1])
  }

  class Database {
    var tables: map<string, Columns>
    var applied: set<string>
    ghost var added: seq<(string, string)>

    ghost function State(): Schema
      reads this
    {
      Schema(tables, applied, added)
    }

    constructor ()
      ensures State() == Schema(map[], {}, [])
    {
      tables, applied, added := map[], {}, [];
    }

    method AddColumns(additions: seq<Addition>)
      requires forall a :: a in additions ==> DistinctColumns(a.columns)
      modifies this`tables, this`added
      ensures State() == WithAdditions(old(State()), additions)
    {
      var i := 0;
      while i < |additions|
        invariant 0 <= i <= |additions|
        invariant State() == WithAdditions(old(State()), additions[..i])
      {
        var addition := additions[i];
        assert additions[..i + 1][..i] == additions[..i];
        assert addition in additions;
        if addition.table in tables {
          AddTableColumns(addition.table, addition.columns);
        } else {
          MissingTable(State(), addition.table, addition.columns);
        }
        i := i + 1;
      }
      assert additions[..i] == additions;
    }

    method AddTableColumns(table: string, columns: seq<(string, string)>)
      requires table in tables && DistinctColumns(columns)
      modifies this`tables, this`added
      ensures State() == WithColumns(old(State()), table, columns)
    {
      var existing := tables[table].Keys;
      var i := 0;
      while i < |columns|
        invariant 0 <= i <= |columns|
        invariant State() == WithColumns(old(State()), table, columns[..i])
        invariant table in tables && tables[table].Keys == existing + (set j | 0 <= j < i :: columns[j].0)
      {
        var column := columns[i];
        assert columns[..i + 1][..i] == columns[..i];
        if column.0 !in existing {
          tables := tables[table := tables[table][column.0 := column.1]];
          added := added + [(table, column.0)];
        }
        i := i + 1;
      }
      assert columns[..i] == columns;
    }

    /** One start of the server, stopped after `budget` transactions. */
    method Start(models: map<string, Columns>, definitions: seq<Definition>, budget: nat)
      requires WellFormed(definitions)
      modifies this
      ensures State() == Started(old(State()), models, definitions, budget)
    {
      hide WithAdditions, DistinctColumns;
      if budget == 0 {
        return;
      }
      tables := models + tables;
      var left := budget - 1;
      var known := applied;
      var i := 0;
      while i < |definitions| && left > 0
        invariant 0 <= i <= |definitions| && 0 <= left
        invariant Migrated(State(), definitions[i..], left) == Started(old(State()), models, definitions, budget)
        invariant forall j :: i <= j < |definitions| ==>
                    (definitions[j].version in known <==> definitions[j].version in applied)
        decreases |definitions| - i
      {
        var d := definitions[i];
        assert definitions[i..][1..] == definitions[i + 1..];
        if d.version !in known {
          assert d in definitions;
          AddColumns(d.additions);
          if left == 1 {
            return;
          }
          applied := applied + {d.version};
          left := left - 2;
        }
        i := i + 1;
      }
    }
  }

  lemma {:induction false} MissingTable(db: Schema, table: string, columns: seq<(string, string)>)
    requires table !in db.tables
    ensures WithColumns(db, table, columns) == db
  {
    if columns != [] { MissingTable(db, table, columns[..|columns| - 1]); }
  }

  // ---------------------------------------------------------------- restarts

  /** Later schemas keep every table, column, version and statement of earlier ones. */
  ghost predicate Extends(later: Schema, db: Schema) {
    && later.tables.Keys == db.tables.Keys
    && (forall t :: t in db.tables ==> db.tables[t].Keys <= later.tables[t].Keys)
    && db.applied <= later.applied
  }

  ghost predicate HasColumns(db: Schema, table: string, columns: seq<(string, string)>) {
    table in db.tables ==> forall i :: 0 <= i < |columns| ==> columns[i].0 in db.tables[table]
  }

  ghost predicate HasAdditions(db: Schema, additions: seq<Addition>) {
    forall i :: 0 <= i < |additions| ==> HasColumns(db, additions[i].table, additions[i].columns)
  }

  lemma {:induction false} ColumnsAdded(db: Schema, table: string, columns: seq<(string, string)>)
    ensures Extends(WithColumns(db, table, columns), db)
    ensures WithColumns(db, table, columns).applied == db.applied
    ensures HasColumns(WithColumns(db, table, columns), table, columns)
    ensures HasColumns(db, table, columns) ==> WithColumns(db, table, columns) == db
  {
    if columns != [] {
      ColumnsAdded(db, table, columns[..|columns| - 1]);
    }
  }

  lemma {:induction false} AdditionsAdded(db: Schema, additions: seq<Addition>)
    ensures Extends(WithAdditions(db, additions), db)
    ensures WithAdditions(db, additions).applied == db.applied
    ensures HasAdditions(WithAdditions(db, additions), additions)
    ensures HasAdditions(db, additions) ==> WithAdditions(db, additions) == db
  {
    if additions != [] {
      var front, last := additions[..|additions| - 1], additions[|additions| - 1];
      var middle := WithAdditions(db, front);
      AdditionsAdded(db, front);
      ColumnsAdded(middle, last.table, last.columns);
      forall i | 0 <= i < |additions|
        ensures HasColumns(WithAdditions(db, additions), additions[i].table, additions[i].columns)
      {
        if i < |front| { assert HasColumns(middle, front[i].table, front[i].columns); }
      }
      if HasAdditions(db, additions) {
        assert HasAdditions(db, front);
        assert HasColumns(db, last.table, last.columns);
      }
    }
  }

  lemma {:induction false} MigratedExtends(db: Schema, definitions: seq<Definition>, budget: nat)
    ensures Extends(Migrated(db, definitions, budget), db)
    decreases |definitions|
  {
    if definitions != [] && budget != 0 {
      var d, rest := definitions[0], definitions[1..];
      AdditionsAdded(db, d.additions);
      if d.version in db.applied {
        MigratedExtends(db, rest, budget);
      } else if budget > 1 {
        MigratedExtends(Recorded(WithAdditions(db, d.additions), d.version), rest, budget - 2);
      }
    }
  }

  /** Completing an interrupted run of migrations gives what one uninterrupted run gives. */
  lemma {:induction false} ResumeMigrations(db: Schema, definitions: seq<Definition>, budget: nat, enough: nat)
    requires enough >= 2 * |definitions|
    ensures Migrated(Migrated(db, definitions, budget), definitions, enough) == Migrated(db, definitions, enough)
    decreases |definitions|
  {
    if definitions != [] && budget != 0 {
      var d, rest := definitions[0], definitions[1..];
      MigratedExtends(db, definitions, budget);
      if d.version in db.applied {
        ResumeMigrations(db, rest, budget, enough);
      } else {
        var changed := WithAdditions(db, d.additions);
        AdditionsAdded(db, d.additions);
        AdditionsAdded(changed, d.additions);
        if budget > 1 {
          var next := Recorded(changed, d.version);
          MigratedExtends(next, rest, budget - 2);
          ResumeMigrations(next, rest, budget - 2, enough - 2);
          ExtraBudget(Migrated(db, definitions, budget), rest, enough - 2, enough);
        }
      }
    }
  }

  lemma {:induction false} ExtraBudget(db: Schema, definitions: seq<Definition>, enough: nat, more: nat)
    requires 2 * |definitions| <= enough <= more
    ensures Migrated(db, definitions, enough) == Migrated(db, definitions, more)
    decreases |definitions|
  {
    if definitions != [] {
      var d, rest := definitions[0], definitions[1..];
      if d.version in db.applied {
        ExtraBudget(db, rest, enough, more);
      } else {
        ExtraBudget(Recorded(WithAdditions(db, d.additions), d.version), rest, enough - 2, more - 2);
      }
    }
  }

  /** One interrupted start, then a completed one. */
  lemma ResumeStart(db: Schema, models: map<string, Columns>, definitions: seq<Definition>, budget: nat)
    ensures Completed(Started(db, models, definitions, budget), models, definitions) ==
            Completed(db, models, definitions)
  {
    if budget > 0 {
      var base := WithModels(db, models);
      var after := Migrated(base, definitions, budget - 1);
      MigratedExtends(base, definitions, budget - 1);
      assert WithModels(after, models) == after;
      ResumeMigrations(base, definitions, budget - 1, 2 * |definitions|);
    }
  }

  /** Any number of starts that stop between transactions, followed by one completed start,
      leave the schema, the applied versions and the very list of executed statements of one
      uninterrupted start; a further start changes nothing. */
  lemma {:induction false} CrashSafeMigrations(
    db: Schema, models: map<string, Columns>, definitions: seq<Definition>, budgets: seq<nat>)
    ensures Completed(Restarted(db, models, definitions, budgets), models, definitions) ==
            Completed(db, models, definitions)
    ensures Completed(Completed(db, models, definitions), models, definitions) == Completed(db, models, definitions)
  {
    ResumeStart(db, models, definitions, 1 + 2 * |definitions|);
    if budgets != [] {
      var before := budgets[..|budgets| - 1];
      CrashSafeMigrations(db, models, definitions, before);
      ResumeStart(Restarted(db, models, definitions, before), models, definitions, budgets[|budgets| - 1]);
    }
  }

  /** No statement repeats, and every added column is there. */
  ghost predicate NothingAddedTwice(db: Schema) {
    && (forall i, j :: 0 <= i < j < |db.added| ==> db.added[i] != db.added[j])
    && (forall i :: 0 <= i < |db.added| ==>
          db.added[i].0 in db.tables && db.added[i].1 in db.tables[db.added[i].0])
  }

  lemma {:induction false} ColumnsAddedOnce(db: Schema, table: string, columns: seq<(string, string)>)
    requires NothingAddedTwice(db)
    ensures NothingAddedTwice(WithColumns(db, table, columns))
  {
    if columns != [] { ColumnsAddedOnce(db, table, columns[..|columns| - 1]); }
  }

  lemma {:induction false} AdditionsAddedOnce(db: Schema, additions: seq<Addition>)
    requires NothingAddedTwice(db)
    ensures NothingAddedTwice(WithAdditions(db, additions))
  {
    if additions != [] {
      var last := additions[|additions| - 1];
      AdditionsAddedOnce(db, additions[..|additions| - 1]);
      ColumnsAddedOnce(WithAdditions(db, additions[..|additions| - 1]), last.table, last.columns);
    }
  }

  lemma {:induction false} MigrationsAddOnce(db: Schema, definitions: seq<Definition>, budget: nat)
    requires NothingAddedTwice(db)
    ensures NothingAddedTwice(Migrated(db, definitions, budget))
    decreases |definitions|
  {
    if definitions != [] && budget != 0 {
      var d, rest := definitions[0], definitions[1..];
      AdditionsAddedOnce(db, d.additions);
      if d.version in db.applied {
        MigrationsAddOnce(db, rest, budget);
      } else if budget > 1 {
        MigrationsAddOnce(Recorded(WithAdditions(db, d.additions), d.version), rest, budget - 2);
      }
    }
  }

  /** The statements executed since are exactly the columns that were not there. */
  ghost predicate HistoryTells(base: map<string, Columns>, history: seq<(string, string)>, db: Schema) {
    && |history| <= |db.added| && db.added[..|history|] == history
    && (forall t :: t in db.tables ==> t in base && base[t].Keys <= db.tables[t].Keys)
    && (forall t, c :: (t, c) in db.added[|history|..] <==>
          t in db.tables && c in db.tables[t] && c !in base[t])
  }

  lemma ColumnTold(base: map<string, Columns>, history: seq<(string, string)>, db: Schema, table: string, column: (string, string))
    requires HistoryTells(base, history, db)
    ensures HistoryTells(base, history, WithColumn(db, table, column))
  {
    var after := WithColumn(db, table, column);
    if after != db {
      assert after.added[|history|..] == db.added[|history|..] + [(table, column.0)];
    }
  }

  lemma {:induction false} ColumnsTold(
    base: map<string, Columns>, history: seq<(string, string)>, db: Schema, table: string, columns: seq<(string, string)>)
    requires HistoryTells(base, history, db)
    ensures HistoryTells(base, history, WithColumns(db, table, columns))
  {
    hide HistoryTells;
    if columns != [] {
      ColumnsTold(base, history, db, table, columns[..|columns| - 1]);
      ColumnTold(base, history, WithColumns(db, table, columns[..|columns| - 1]), table, columns[|columns| - 1]);
    }
  }

  lemma {:induction false} AdditionsTold(
    base: map<string, Columns>, history: seq<(string, string)>, db: Schema, additions: seq<Addition>)
    requires HistoryTells(base, history, db)
    ensures HistoryTells(base, history, WithAdditions(db, additions))
  {
    hide HistoryTells;
    if additions != [] {
      var last := additions[|additions| - 1];
      AdditionsTold(base, history, db, additions[..|additions| - 1]);
      ColumnsTold(base, history, WithAdditions(db, additions[..|additions| - 1]), last.table, last.columns);
    }
  }

  lemma {:induction false} MigrationsTold(
    base: map<string, Columns>, history: seq<(string, string)>, db: Schema, definitions: seq<Definition>, budget: nat)
    requires HistoryTells(base, history, db)
    ensures HistoryTells(base, history, Migrated(db, definitions, budget))
    decreases |definitions|
  {
    if definitions != [] && budget != 0 {
      var d, rest := definitions[0], definitions[1..];
      AdditionsTold(base, history, db, d.additions);
      if d.version in db.applied {
        MigrationsTold(base, history, db, rest, budget);
      } else if budget > 1 {
        MigrationsTold(base, history, Recorded(WithAdditions(db, d.additions), d.version), rest, budget - 2);
      }
    }
  }

  lemma ModelsTold(db: Schema, models: map<string, Columns>, history: seq<(string, string)>, s: Schema)
    requires HistoryTells(models + db.tables, history, s) && db.tables.Keys <= s.tables.Keys
    ensures HistoryTells(models + db.tables, history, WithModels(s, models))
  {}

  lemma HistoryBegins(db: Schema, models: map<string, Columns>)
    ensures HistoryTells(models + db.tables, db.added, db)
  {
    assert db.added[|db.added|..] == [];
  }

  lemma StartTold(db: Schema, models: map<string, Columns>, definitions: seq<Definition>, s: Schema, budget: nat)
    requires NothingAddedTwice(s) && HistoryTells(models + db.tables, db.added, s) && db.tables.Keys <= s.tables.Keys
    ensures var after := Started(s, models, definitions, budget);
      NothingAddedTwice(after) && HistoryTells(models + db.tables, db.added, after) && db.tables.Keys <= after.tables.Keys
  {
    hide HistoryTells, NothingAddedTwice, Migrated;
    if budget > 0 {
      AddedOnceWithModels(s, models);
      MigrationsAddOnce(WithModels(s, models), definitions, budget - 1);
      ModelsTold(db, models, db.added, s);
      MigrationsTold(models + db.tables, db.added, WithModels(s, models), definitions, budget - 1);
      MigratedExtends(WithModels(s, models), definitions, budget - 1);
    }
  }

  /** Over any sequence of interrupted starts no `ADD COLUMN` is executed a second time, and
      those executed are exactly the columns that neither the database nor a new model table
      had. */
  lemma {:induction false} NoColumnAddedTwice(
    db: Schema, models: map<string, Columns>, definitions: seq<Definition>, budgets: seq<nat>)
    requires NothingAddedTwice(db)
    ensures NothingAddedTwice(Restarted(db, models, definitions, budgets))
    ensures HistoryTells(models + db.tables, db.added, Restarted(db, models, definitions, budgets))
    ensures db.tables.Keys <= Restarted(db, models, definitions, budgets).tables.Keys
  {
    hide HistoryTells, NothingAddedTwice, Started;
    if budgets == [] {
      HistoryBegins(db, models);
    } else {
      var before := budgets[..|budgets| - 1];
      NoColumnAddedTwice(db, models, definitions, before);
      StartTold(db, models, definitions, Restarted(db, models, definitions, before), budgets[|budgets| - 1]);
    }
  }

  lemma AddedOnceWithModels(db: Schema, models: map<string, Columns>)
    requires NothingAddedTwice(db)
    ensures NothingAddedTwice(WithModels(db, models))
  {}

  // ---------------------------------------------------------------- what the migrations leave

  /** One `ADD COLUMN`: a table, and the column's name and definition. */
  datatype Statement = Statement(table: string, column: (string, string))

  function StatementsOf(addition: Addition): seq<Statement> {
    seq(|addition.columns|, i requires 0 <= i < |addition.columns| => Statement(addition.table, addition.columns[i]))
  }

  function StatementsOfAll(additions: seq<Addition>): seq<Statement> {
    if additions == [] then []
    else StatementsOfAll(additions[..|additions| - 1]) + StatementsOf(additions[|additions| - 1])
  }

  /** What the definitions that are not applied yet ask for, in order. */
  function Pending(definitions: seq<Definition>, applied: set<string>): seq<Statement> {
    if definitions == [] then []
    else
      (if definitions[0].version in applied then [] else StatementsOfAll(definitions[0].additions))
        + Pending(definitions[1..], applied)
  }

  ghost predicate Names(statements: seq<Statement>, n: nat, table: string, column: string) {
    n < |statements| && statements[n].table == table && statements[n].column.0 == column
  }

  ghost predicate NamesFirst(statements: seq<Statement>, n: nat, table: string, column: string) {
    Names(statements, n, table, column) && forall m: nat :: m < n ==> !Names(statements, m, table, column)
  }

  /** The tables are the same ones; what was there stays as it was defined; each statement's
      column is there, defined as the first statement that names it says unless it was there
      before; and nothing else was added. */
  ghost predicate HasRun(before: map<string, Columns>, after: map<string, Columns>, statements: seq<Statement>) {
    && after.Keys == before.Keys
    && (forall t, c :: t in before && c in before[t] ==> c in after[t] && after[t][c] == before[t][c])
    && (forall n: nat, t, c :: NamesFirst(statements, n, t, c) && t in before ==>
          c in after[t] && (c !in before[t] ==> after[t][c] == statements[n].column.1))
    && (forall t, c :: t in before && c in after[t] && c !in before[t] ==> exists n: nat :: NamesFirst(statements, n, t, c))
  }

  lemma {:induction false} FirstNaming(statements: seq<Statement>, n: nat, table: string, column: string) returns (first: nat)
    requires Names(statements, n, table, column)
    ensures first <= n && NamesFirst(statements, first, table, column)
  {
    if m: nat :| m < n && Names(statements, m, table, column) {
      first := FirstNaming(statements, m, table, column);
    } else {
      first := n;
    }
  }

  lemma FirstNamingExtended(s: seq<Statement>, more: seq<Statement>, n: nat, table: string, column: string)
    requires n < |s|
    ensures NamesFirst(s + more, n, table, column) <==> NamesFirst(s, n, table, column)
  {
    assert forall m: nat :: m <= n ==> (Names(s + more, m, table, column) <==> Names(s, m, table, column));
  }

  lemma NamedBefore(s: seq<Statement>, last: Statement, table: string, column: string)
    requires NamesFirst(s + [last], |s|, table, column)
    ensures forall m: nat :: !NamesFirst(s, m, table, column)
  {
    forall m: nat | m < |s| ensures !Names(s, m, table, column) {
      assert Names(s + [last], m, table, column) <==> Names(s, m, table, column);
    }
  }

  lemma OneMore(db: Schema, before: map<string, Columns>, statements: seq<Statement>, table: string, column: (string, string))
    requires HasRun(before, db.tables, statements)
    ensures HasRun(before, WithColumn(db, table, column).tables, statements + [Statement(table, column)])
  {
    var all, after := statements + [Statement(table, column)], WithColumn(db, table, column).tables;
    forall n: nat, t, c | NamesFirst(all, n, t, c) && t in before
      ensures c in after[t] && (c !in before[t] ==> after[t][c] == all[n].column.1)
    {
      if n < |statements| {
        FirstNamingExtended(statements, [Statement(table, column)], n, t, c);
      } else {
        NamedBefore(statements, Statement(table, column), t, c);
      }
    }
    forall t, c | t in before && c in after[t] && c !in before[t]
      ensures exists n: nat :: NamesFirst(all, n, t, c)
    {
      if c in db.tables[t] {
        var m: nat :| NamesFirst(statements, m, t, c);
        FirstNamingExtended(statements, [Statement(table, column)], m, t, c);
      } else {
        assert Names(all, |statements|, t, c);
        var first := FirstNaming(all, |statements|, t, c);
      }
    }
  }

  lemma {:induction false} ColumnsRun(
    db: Schema, before: map<string, Columns>, statements: seq<Statement>, table: string, columns: seq<(string, string)>)
    requires HasRun(before, db.tables, statements)
    ensures HasRun(before, WithColumns(db, table, columns).tables, statements + StatementsOf(Addition(table, columns)))
  {
    hide HasRun;
    var own := StatementsOf(Addition(table, columns));
    if columns == [] {
      assert statements + own == statements;
    } else {
      var front, last := columns[..|columns| - 1], columns[|columns| - 1];
      ColumnsRun(db, before, statements, table, front);
      OneMore(WithColumns(db, table, front), before, statements + StatementsOf(Addition(table, front)), table, last);
      assert statements + own == statements + StatementsOf(Addition(table, front)) + [Statement(table, last)];
    }
  }

  lemma Associative(a: seq<Statement>, b: seq<Statement>, c: seq<Statement>)
    ensures a + (b + c) == a + b + c
  {}

  lemma {:induction false} AdditionsRun(
    db: Schema, before: map<string, Columns>, statements: seq<Statement>, additions: seq<Addition>)
    requires HasRun(before, db.tables, statements)
    ensures HasRun(before, WithAdditions(db, additions).tables, statements + StatementsOfAll(additions))
  {
    hide HasRun, WithColumns, StatementsOf;
    if additions == [] {
      assert statements + StatementsOfAll(additions) == statements;
    } else {
      var front, last := additions[..|additions| - 1], additions[|additions| - 1];
      AdditionsRun(db, before, statements, front);
      ColumnsRun(WithAdditions(db, front), before, statements + StatementsOfAll(front), last.table, last.columns);
      Associative(statements, StatementsOfAll(front), StatementsOf(last));
    }
  }

  /** A version is in nobody else's way: what is pending does not depend on it. */
  lemma {:induction false} PendingElsewhere(definitions: seq<Definition>, applied: set<string>, version: string)
    requires forall i :: 0 <= i < |definitions| ==> definitions[i].version != version
    ensures Pending(definitions, applied + {version}) == Pending(definitions, applied)
  {
    if definitions != [] { PendingElsewhere(definitions[1..], applied, version); }
  }

  lemma {:induction false} MigrationsRun(
    db: Schema, before: map<string, Columns>, statements: seq<Statement>, definitions: seq<Definition>, enough: nat)
    requires DistinctVersions(definitions) && enough >= 2 * |definitions| && HasRun(before, db.tables, statements)
    ensures HasRun(before, Migrated(db, definitions, enough).tables, statements + Pending(definitions, db.applied))
    ensures Migrated(db, definitions, enough).applied ==
      db.applied + set i | 0 <= i < |definitions| :: definitions[i].version
    decreases |definitions|
  {
    hide HasRun;
    if definitions == [] {
      assert statements + Pending(definitions, db.applied) == statements;
    } else {
      var d, rest := definitions[0], definitions[1..];
      assert (set i | 0 <= i < |definitions| :: definitions[i].version) ==
        {d.version} + set i | 0 <= i < |rest| :: rest[i].version by { VersionsOf(definitions); }
      if d.version in db.applied {
        MigrationsRun(db, before, statements, rest, enough);
        assert Pending(definitions, db.applied) == Pending(rest, db.applied);
      } else {
        var changed := WithAdditions(db, d.additions);
        AdditionsAdded(db, d.additions);
        AdditionsRun(db, before, statements, d.additions);
        PendingElsewhere(rest, db.applied, d.version);
        MigrationsRun(Recorded(changed, d.version), before, statements + StatementsOfAll(d.additions), rest, enough - 2);
        assert statements + Pending(definitions, db.applied) ==
          statements + StatementsOfAll(d.additions) + Pending(rest, db.applied);
      }
    }
  }

  lemma VersionsOf(definitions: seq<Definition>)
    requires definitions != []
    ensures (set i | 0 <= i < |definitions| :: definitions[i].version) ==
      {definitions[0].version} + set i | 0 <= i < |definitions[1..]| :: definitions[1..][i].version
  {
    var all := set i | 0 <= i < |definitions| :: definitions[i].version;
    forall v | v in all
      ensures v in {definitions[0].version} + set i | 0 <= i < |definitions[1..]| :: definitions[1..][i].version
    {
      var i :| 0 <= i < |definitions| && definitions[i].version == v;
      if i > 0 { assert definitions[1..][i - 1].version == v; }
    }
  }

  /** What a completed start leaves: all versions recorded; the model's tables and the ones
      that were there; in them exactly the columns they had, unchanged, and those that the
      definitions not applied before ask for, each as the first of them defines it. */
  lemma CompletedStartMigrates(db: Schema, models: map<string, Columns>, definitions: seq<Definition>)
    requires DistinctVersions(definitions)
    ensures var after := Completed(db, models, definitions);
      && after.applied == db.applied + (set i | 0 <= i < |definitions| :: definitions[i].version)
      && HasRun(models + db.tables, after.tables, Pending(definitions, db.applied))
  {
    var base := WithModels(db, models);
    assert HasRun(base.tables, base.tables, []);
    MigrationsRun(base, base.tables, [], definitions, 2 * |definitions|);
    assert [] + Pending(definitions, db.applied) == Pending(definitions, db.applied);
  }

  /** Whatever was there is still there, as it was defined, and each version recorded since has
      its columns. */
  ghost predicate Sound(db: Schema, after: Schema, definitions: seq<Definition>) {
    && (forall t :: t in db.tables ==> t in after.tables)
    && (forall t, c :: t in db.tables && c in db.tables[t] ==>
          c in after.tables[t] && after.tables[t][c] == db.tables[t][c])
    && db.applied <= after.applied
    && forall i :: 0 <= i < |definitions| && definitions[i].version in after.applied && definitions[i].version !in db.applied ==>
         HasAdditions(after, definitions[i].additions)
  }

  lemma {:induction false} ColumnsStay(db: Schema, table: string, columns: seq<(string, string)>)
    ensures forall t, c :: t in db.tables && c in db.tables[t] ==>
      && t in WithColumns(db, table, columns).tables && c in WithColumns(db, table, columns).tables[t]
      && WithColumns(db, table, columns).tables[t][c] == db.tables[t][c]
  {
    if columns != [] { ColumnsStay(db, table, columns[..|columns| - 1]); }
  }

  lemma {:induction false} AdditionsStay(db: Schema, additions: seq<Addition>)
    ensures forall t, c :: t in db.tables && c in db.tables[t] ==>
      && t in WithAdditions(db, additions).tables && c in WithAdditions(db, additions).tables[t]
      && WithAdditions(db, additions).tables[t][c] == db.tables[t][c]
  {
    if additions != [] {
      var front, last := additions[..|additions| - 1], additions[|additions| - 1];
      AdditionsStay(db, front);
      ColumnsStay(WithAdditions(db, front), last.table, last.columns);
    }
  }

  lemma AdditionsLast(db: Schema, later: Schema, additions: seq<Addition>)
    requires HasAdditions(db, additions) && Extends(later, db)
    ensures HasAdditions(later, additions)
  {
    forall i | 0 <= i < |additions| ensures HasColumns(later, additions[i].table, additions[i].columns) {
      assert HasColumns(db, additions[i].table, additions[i].columns);
    }
  }

  lemma {:induction false} MigrationsAreSound(db: Schema, definitions: seq<Definition>, budget: nat)
    requires DistinctVersions(definitions)
    ensures Sound(db, Migrated(db, definitions, budget), definitions)
    ensures forall v :: v in Migrated(db, definitions, budget).applied ==>
      v in db.applied || exists i :: 0 <= i < |definitions| && definitions[i].version == v
    decreases |definitions|
  {
    hide HasAdditions, Extends;
    if definitions != [] && budget != 0 {
      var d, rest := definitions[0], definitions[1..];
      var after := Migrated(db, definitions, budget);
      if d.version in db.applied {
        MigrationsAreSound(db, rest, budget);
        assert forall i :: 0 < i < |definitions| ==> definitions[i] == rest[i - 1];
      } else {
        var changed := WithAdditions(db, d.additions);
        AdditionsAdded(db, d.additions);
        AdditionsStay(db, d.additions);
        ExtendsMeans(changed, db);
        if budget > 1 {
          var next := Recorded(changed, d.version);
          MigrationsAreSound(next, rest, budget - 2);
          MigratedExtends(next, rest, budget - 2);
          assert HasAdditions(next, d.additions) by { RecordedHas(changed, d.version, d.additions); }
          AdditionsLast(next, after, d.additions);
          assert forall i :: 0 < i < |definitions| ==> definitions[i] == rest[i - 1];
        }
      }
    }
  }

  lemma ExtendsMeans(later: Schema, db: Schema)
    requires Extends(later, db)
    ensures later.tables.Keys == db.tables.Keys && db.applied <= later.applied
  {}

  lemma RecordedHas(db: Schema, version: string, additions: seq<Addition>)
    requires HasAdditions(db, additions)
    ensures HasAdditions(Recorded(db, version), additions)
  {
    forall i | 0 <= i < |additions| ensures HasColumns(Recorded(db, version), additions[i].table, additions[i].columns) {
      assert HasColumns(db, additions[i].table, additions[i].columns);
    }
  }

  lemma StartIsSound(db: Schema, models: map<string, Columns>, definitions: seq<Definition>, budget: nat)
    requires DistinctVersions(definitions)
    ensures Sound(db, Started(db, models, definitions, budget), definitions)
    ensures Started(db, models, definitions, budget).tables.Keys ==
      if budget == 0 then db.tables.Keys else models.Keys + db.tables.Keys
  {
    hide HasAdditions;
    if budget > 0 {
      MigrationsAreSound(WithModels(db, models), definitions, budget - 1);
      MigratedExtends(WithModels(db, models), definitions, budget - 1);
    }
  }

  lemma {:induction false} RestartsAreSound(
    db: Schema, models: map<string, Columns>, definitions: seq<Definition>, budgets: seq<nat>)
    requires DistinctVersions(definitions)
    ensures var after := Restarted(db, models, definitions, budgets);
      && Sound(db, after, definitions)
      && (after == db || models.Keys <= after.tables.Keys)
  {
    hide HasAdditions;
    if budgets != [] {
      var front, budget := budgets[..|budgets| - 1], budgets[|budgets| - 1];
      var middle := Restarted(db, models, definitions, front);
      RestartsAreSound(db, models, definitions, front);
      StartIsSound(middle, models, definitions, budget);
      if budget > 0 && middle != db { SoundTransitive(db, middle, Started(middle, models, definitions, budget), definitions); }
    }
  }

  lemma SoundTransitive(a: Schema, b: Schema, c: Schema, definitions: seq<Definition>)
    requires Sound(a, b, definitions) && Sound(b, c, definitions) && c.tables.Keys == b.tables.Keys
    ensures Sound(a, c, definitions)
  {
    hide HasAdditions;
    forall i | 0 <= i < |definitions| && definitions[i].version in c.applied && definitions[i].version !in a.applied
      ensures HasAdditions(c, definitions[i].additions)
    {
      if definitions[i].version in b.applied {
        ColumnsInBoth(b, c, definitions[i].additions);
      }
    }
  }

  lemma ColumnsInBoth(b: Schema, c: Schema, additions: seq<Addition>)
    requires HasAdditions(b, additions) && c.tables.Keys == b.tables.Keys
    requires forall t, column :: t in b.tables && column in b.tables[t] ==> column in c.tables[t]
    ensures HasAdditions(c, additions)
  {
    forall i | 0 <= i < |additions| ensures HasColumns(c, additions[i].table, additions[i].columns) {
      assert HasColumns(b, additions[i].table, additions[i].columns);
    }
  }

  /** In every state that starts stopped anywhere can leave, a version recorded by them has its
      columns in every table there is, no column has changed its definition, and each column is
      defined as an uninterrupted start would have defined it. */
  lemma StoppedStartsAreSound(
    db: Schema, models: map<string, Columns>, definitions: seq<Definition>, budgets: seq<nat>)
    requires DistinctVersions(definitions)
    ensures var after := Restarted(db, models, definitions, budgets);
      && Sound(db, after, definitions)
      && Sound(after, Completed(db, models, definitions), definitions)
  {
    hide Sound;
    RestartsAreSound(db, models, definitions, budgets);
    CrashSafeMigrations(db, models, definitions, budgets);
    StartIsSound(Restarted(db, models, definitions, budgets), models, definitions, 1 + 2 * |definitions|);
  }
}
