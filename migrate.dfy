/**
 * The SQLite migrator's selection rules: which scripts `run_migrations`
 * applies and in what order, and which statements `import_data` issues.
 * Executing a script or a statement is an oracle that says whether it
 * succeeds; file reading and the database itself are not modelled.
 */
module Migration {
  import opened Wrappers
  import opened Text

  // ---------------------------------------------------------------------
  // Running the steps of a plan until the first one that fails
  // ---------------------------------------------------------------------

  /** The steps a run attempts: every step up to and including the first that fails. */
  function UpToFailure<T>(steps: seq<T>, succeeds: T -> bool): (tried: seq<T>)
    ensures tried <= steps
  {
    if steps == [] then []
    else if !succeeds(steps[0]) then [steps[0]]
    else [steps[0]] + UpToFailure(steps[1..], succeeds)
  }

  /**
   * A run either attempts every step, all of which but possibly the last
   * succeed, or stops at a failing step after a stretch of successes.
   */
  lemma {:induction false} UpToFailureShape<T>(steps: seq<T>, succeeds: T -> bool)
    ensures var tried := UpToFailure(steps, succeeds);
      && (forall k :: 0 <= k < |tried| - 1 ==> succeeds(tried[k]))
      && (tried == steps || (tried != [] && !succeeds(tried[|tried| - 1])))
      && ((forall k :: 0 <= k < |steps| ==> succeeds(steps[k])) ==> tried == steps)
  {
    if steps != [] && succeeds(steps[0]) {
      UpToFailureShape(steps[1..], succeeds);
      var rest := UpToFailure(steps[1..], succeeds);
      assert UpToFailure(steps, succeeds) == [steps[0]] + rest;
      if forall k :: 0 <= k < |steps| ==> succeeds(steps[k]) {
        assert forall k :: 0 <= k < |steps[1..]| ==> succeeds(steps[1..][k]) by {
          forall k | 0 <= k < |steps[1..]|
            ensures succeeds(steps[1..][k])
          {
            assert steps[1..][k] == steps[k + 1];
          }
        }
        assert steps == [steps[0]] + steps[1..];
      }
    }
  }

  /** A run passes through a stretch of steps that all succeed. */
  lemma {:induction false} UpToFailureSkips<T>(done: seq<T>, rest: seq<T>, succeeds: T -> bool)
    requires forall k :: 0 <= k < |done| ==> succeeds(done[k])
    ensures UpToFailure(done + rest, succeeds) == done + UpToFailure(rest, succeeds)
  {
    if done != [] {
      assert (done + rest)[0] == done[0];
      assert (done + rest)[1..] == done[1..] + rest;
      UpToFailureSkips(done[1..], rest, succeeds);
    } else {
      assert done + rest == rest;
    }
  }

  // ---------------------------------------------------------------------
  // Choosing the migration files
  // ---------------------------------------------------------------------

  /** Python's `<=` on `str`: code point by code point, a prefix first. */
  predicate LexLe(a: string, b: string)
    decreases |a|
  {
    a == [] || (b != [] && (a[0] < b[0] || (a[0] == b[0] && LexLe(a[1..], b[1..]))))
  }

  lemma {:induction false} LexTotal(a: string, b: string)
    ensures LexLe(a, b) || LexLe(b, a)
    decreases |a|
  {
    if a != [] && b != [] && a[0] == b[0] {
      LexTotal(a[1..], b[1..]);
    }
  }

  lemma {:induction false} LexAntisymmetric(a: string, b: string)
    requires LexLe(a, b) && LexLe(b, a)
    ensures a == b
    decreases |a|
  {
    if a != [] {
      LexAntisymmetric(a[1..], b[1..]);
      assert a == [a[0]] + a[1..] && b == [b[0]] + b[1..];
    }
  }

  lemma {:induction false} LexTransitive(a: string, b: string, c: string)
    requires LexLe(a, b) && LexLe(b, c)
    ensures LexLe(a, c)
    decreases |a|
  {
    if a != [] && a[0] == b[0] && b[0] == c[0] {
      LexTransitive(a[1..], b[1..], c[1..]);
    }
  }

  predicate Sorted(names: seq<string>) {
    forall i :: 0 < i < |names| ==> LexLe(names[i - 1], names[i])
  }

  function InsertName(x: string, names: seq<string>): (r: seq<string>)
    requires Sorted(names)
    ensures Sorted(r) && multiset(r) == multiset(names) + multiset{x}
    ensures r[0] == x || (names != [] && r[0] == names[0])
  {
    if names == [] then [x]
    else if LexLe(x, names[0]) then [x] + names
    else
      var rest := InsertName(x, names[1..]);
      LexTotal(x, names[0]);
      assert names == [names[0]] + names[1..];
      [names[0]] + rest
  }

  /** Python's `sorted` on file names. */
  function SortNames(names: seq<string>): (r: seq<string>)
    ensures Sorted(r) && multiset(r) == multiset(names)
  {
    if names == [] then []
    else
      assert names == [names[0]] + names[1..];
      InsertName(names[0], SortNames(names[1..]))
  }

  /** Two ascending orderings of the same names are the same list: `sorted` has one possible answer. */
  lemma {:induction false} SortedUnique(a: seq<string>, b: seq<string>)
    requires Sorted(a) && Sorted(b) && multiset(a) == multiset(b)
    ensures a == b
    decreases |a|
  {
    if a != [] {
      assert b != [] by {
        assert |b| == |multiset(b)| == |multiset(a)| == |a|;
      }
      assert a[0] == b[0] by {
        assert a[0] in multiset(b) && b[0] in multiset(a);
        SortedHeadIsLeast(a, b[0]);
        SortedHeadIsLeast(b, a[0]);
        LexAntisymmetric(a[0], b[0]);
      }
      assert a[1..] == b[1..] by {
        Tail(a);
        Tail(b);
        SortedUnique(a[1..], b[1..]);
      }
      assert a == [a[0]] + a[1..] && b == [b[0]] + b[1..];
    }
  }

  lemma Tail(s: seq<string>)
    requires s != []
    ensures multiset(s[1..]) == multiset(s) - multiset{s[0]}
    ensures Sorted(s) ==> Sorted(s[1..])
  {
    assert s == [s[0]] + s[1..];
  }

  lemma {:induction false} SortedHeadIsLeast(s: seq<string>, x: string)
    requires Sorted(s) && x in multiset(s)
    ensures LexLe(s[0], x)
    decreases |s|
  {
    if s[0] != x {
      assert s == [s[0]] + s[1..];
      assert x in multiset(s[1..]);
      SortedHeadIsLeast(s[1..], x);
      LexTransitive(s[0], s[1], x);
    } else {
      LexReflexive(x);
    }
  }

  lemma {:induction false} LexReflexive(a: string)
    ensures LexLe(a, a)
    decreases |a|
  {
    if a != [] {
      LexReflexive(a[1..]);
    }
  }

  /** The directory entries whose names end in `.sql`, in listing order. */
  function SqlFiles(entries: seq<string>): (files: seq<string>)
    ensures forall f :: f in files <==> f in entries && EndsWith(f, ".sql")
    ensures multiset(files) <= multiset(entries)
  {
    if entries == [] then []
    else
      assert entries == [entries[0]] + entries[1..];
      (if EndsWith(entries[0], ".sql") then [entries[0]] else []) + SqlFiles(entries[1..])
  }

  /** The migration scripts in the order they are considered. */
  function MigrationFiles(entries: seq<string>): (files: seq<string>)
    ensures Sorted(files)
    ensures multiset(files) == multiset(SqlFiles(entries))
  {
    SortNames(SqlFiles(entries))
  }

  /** The scripts considered are exactly the `.sql` entries, each as often as listed, in ascending order. */
  lemma MigrationFilesChosen(entries: seq<string>)
    ensures Sorted(MigrationFiles(entries))
    ensures multiset(MigrationFiles(entries)) == multiset(SqlFiles(entries))
    ensures forall f :: f in MigrationFiles(entries) <==> f in entries && EndsWith(f, ".sql")
  {
    var files := MigrationFiles(entries);
    assert forall f :: f in files <==> f in multiset(files);
  }

  /** `name.split('_')[0]`: the name up to its first underscore, or the whole name when it has none. */
  function Version(name: string): (v: string)
    ensures v <= name && '_' !in v
    ensures |v| < |name| ==> name[|v|] == '_'
    ensures '_' !in name ==> v == name
  {
    if name == [] || name[0] == '_' then []
    else [name[0]] + Version(name[1..])
  }

  /** `Version` is Python's `split('_')[0]`: the first piece of the split. */
  lemma {:induction false} VersionIsFirstPiece(name: string)
    ensures Version(name) == Split(name, '_')[0]
  {
    if name != [] && name[0] != '_' {
      VersionIsFirstPiece(name[1..]);
    }
  }

  /**
   * `get_applied_migrations`: the set of versions in the `migrations` table;
   * `None` stands for the `OperationalError` of a missing table.
   */
  function AppliedVersions(rows: Option<seq<string>>): (applied: set<string>)
    ensures rows.None? ==> applied == {}
    ensures rows.Some? ==> forall v :: v in applied <==> v in rows.value
  {
    match rows
    case None => {}
    case Some(vs) => set v | v in vs
  }

  /** The scripts not skipped: those whose version is not in the applied set, in order. */
  function Pending(files: seq<string>, applied: set<string>): (todo: seq<string>)
    ensures |todo| <= |files|
  {
    if files == [] then []
    else (if Version(files[0]) in applied then [] else [files[0]]) + Pending(files[1..], applied)
  }

  /** A script is pending exactly when it is one of the files and its version has not been applied. */
  lemma {:induction false} PendingMembers(files: seq<string>, applied: set<string>)
    ensures forall f :: f in Pending(files, applied) <==> f in files && Version(f) !in applied
  {
    if files != [] {
      PendingMembers(files[1..], applied);
      assert files == [files[0]] + files[1..];
    }
  }

  /** Skipping applied scripts keeps the rest in ascending order. */
  lemma {:induction false} PendingSorted(files: seq<string>, applied: set<string>)
    requires Sorted(files)
    ensures Sorted(Pending(files, applied))
  {
    if files != [] {
      Tail(files);
      PendingSorted(files[1..], applied);
      var rest := Pending(files[1..], applied);
      if Version(files[0]) !in applied && rest != [] {
        PendingMembers(files[1..], applied);
        assert rest[0] in rest;
        assert files == [files[0]] + files[1..];
        assert rest[0] in multiset(files);
        SortedHeadIsLeast(files, rest[0]);
        var todo := Pending(files, applied);
        assert todo == [files[0]] + rest;
        assert todo[1..] == rest;
      }
    }
  }

  lemma {:induction false} PendingAppend(a: seq<string>, b: seq<string>, applied: set<string>)
    ensures Pending(a + b, applied) == Pending(a, applied) + Pending(b, applied)
  {
    if a != [] {
      assert (a + b)[0] == a[0];
      assert (a + b)[1..] == a[1..] + b;
      PendingAppend(a[1..], b, applied);
    } else {
      assert a + b == b;
    }
  }

  /** One more script either joins the pending list or is skipped. */
  lemma PendingStep(files: seq<string>, i: int, applied: set<string>)
    requires 0 <= i < |files|
    ensures Pending(files[..i + 1], applied) ==
      Pending(files[..i], applied) + (if Version(files[i]) in applied then [] else [files[i]])
    ensures Version(files[i]) !in applied ==>
      Pending(files, applied) == Pending(files[..i], applied) + ([files[i]] + Pending(files[i + 1..], applied))
  {
    assert files[..i + 1] == files[..i] + [files[i]];
    PendingAppend(files[..i], [files[i]], applied);
    assert files == files[..i] + ([files[i]] + files[i + 1..]);
    PendingAppend(files[..i], [files[i]] + files[i + 1..], applied);
    PendingAppend([files[i]], files[i + 1..], applied);
    assert Pending([files[i]], applied) == (if Version(files[i]) in applied then [] else [files[i]]) + [];
  }

  /**
   * The loop of `run_migrations` over the sorted scripts: skip a script whose
   * version is in `applied`, otherwise run it; the first one that raises ends
   * the run. `executed` lists the scripts run, in order.
   */
  method ApplyInOrder(files: seq<string>, applied: set<string>, succeeds: string -> bool)
    returns (ok: bool, executed: seq<string>)
    ensures executed == UpToFailure(Pending(files, applied), succeeds)
    ensures ok <==> forall f :: f in Pending(files, applied) ==> succeeds(f)
  {
    ghost var todo := Pending(files, applied);
    executed := [];
    var i := 0;
    while i < |files|
      invariant 0 <= i <= |files|
      invariant executed == Pending(files[..i], applied)
      invariant forall k :: 0 <= k < |executed| ==> succeeds(executed[k])
    {
      var file := files[i];
      PendingStep(files, i, applied);
      if Version(file) in applied {
        i := i + 1;
        continue;
      }
      if !succeeds(file) {
        FailureEndsRun(executed, file, Pending(files[i + 1..], applied), succeeds);
        executed := executed + [file];
        return false, executed;
      }
      executed := executed + [file];
      i := i + 1;
    }
    assert files[..i] == files;
    SuccessRunsAll(executed, succeeds);
    ok := true;
  }

  lemma FailureEndsRun<T>(done: seq<T>, failed: T, rest: seq<T>, succeeds: T -> bool)
    requires forall k :: 0 <= k < |done| ==> succeeds(done[k])
    requires !succeeds(failed)
    ensures UpToFailure(done + ([failed] + rest), succeeds) == done + [failed]
    ensures failed in done + ([failed] + rest)
  {
    UpToFailureSkips(done, [failed] + rest, succeeds);
    assert ([failed] + rest)[0] == failed;
    assert (done + ([failed] + rest))[|done|] == failed;
  }

  lemma SuccessRunsAll<T>(done: seq<T>, succeeds: T -> bool)
    requires forall k :: 0 <= k < |done| ==> succeeds(done[k])
    ensures UpToFailure(done, succeeds) == done
    ensures forall x :: x in done ==> succeeds(x)
  {
    assert done + [] == done;
    UpToFailureSkips(done, [], succeeds);
  }

  /**
   * `run_migrations`. `entries` is the directory listing, `appliedRows` the
   * `migrations` table as read once before the loop, and `succeeds` says
   * whether executing and committing a script raises.
   */
  method RunMigrations(entries: seq<string>, appliedRows: Option<seq<string>>, succeeds: string -> bool)
    returns (ok: bool, executed: seq<string>)
    ensures MigrationFiles(entries) == [] ==> !ok && executed == []
    ensures MigrationFiles(entries) != [] ==>
      executed == UpToFailure(Pending(MigrationFiles(entries), AppliedVersions(appliedRows)), succeeds)
    ensures ok <==> (MigrationFiles(entries) != [] &&
      forall f :: f in Pending(MigrationFiles(entries), AppliedVersions(appliedRows)) ==> succeeds(f))
    ensures Sorted(executed)
  {
    var files := MigrationFiles(entries);
    if files == [] {
      return false, [];
    }
    var applied := AppliedVersions(appliedRows);
    ok, executed := ApplyInOrder(files, applied, succeeds);
    assert Sorted(executed) by {
      MigrationFilesChosen(entries);
      PendingSorted(files, applied);
    }
  }

  // ---------------------------------------------------------------------
  // Importing exported rows
  // ---------------------------------------------------------------------

  /** A JSON value is handed to SQLite as it is; its shape does not matter here. */
  type Cell = string

  /** One exported row: its keys and values in object order. */
  type Row = seq<(string, Cell)>

  /** `INSERT OR REPLACE INTO table (columns) VALUES (?, …)` with its bound values. */
  datatype Statement = InsertOrReplace(table: string, columns: seq<string>, values: seq<Cell>)

  /** The columns `PRAGMA table_info(table)` lists; an unknown table has none. */
  function Columns(schema: map<string, seq<string>>, table: string): (columns: seq<string>)
    ensures table !in schema ==> columns == []
    ensures forall c :: c in columns ==> table in schema && c in schema[table]
  {
    if table in schema then schema[table] else []
  }

  /** The dict comprehension: the row's pairs whose key is a column, in the row's order. */
  function FilterRow(row: Row, columns: seq<string>): (kept: Row)
    ensures forall p :: p in kept <==> p in row && p.0 in columns
    ensures |kept| <= |row|
  {
    if row == [] then []
    else (if row[0].0 in columns then [row[0]] else []) + FilterRow(row[1..], columns)
  }

  function Keys(row: Row): (ks: seq<string>)
    ensures |ks| == |row| && forall k :: 0 <= k < |row| ==> ks[k] == row[k].0
  {
    if row == [] then [] else [row[0].0] + Keys(row[1..])
  }

  function Values(row: Row): (vs: seq<Cell>)
    ensures |vs| == |row| && forall k :: 0 <= k < |row| ==> vs[k] == row[k].1
  {
    if row == [] then [] else [row[0].1] + Values(row[1..])
  }

  /** The statement for one row, or none when no key survives the filter. */
  function RowStatements(table: string, row: Row, columns: seq<string>): (stmts: seq<Statement>)
    ensures |stmts| <= 1
    ensures stmts == [] <==> FilterRow(row, columns) == []
  {
    var kept := FilterRow(row, columns);
    if kept == [] then [] else [InsertOrReplace(table, Keys(kept), Values(kept))]
  }

  function TableStatements(table: string, rows: seq<Row>, columns: seq<string>): (stmts: seq<Statement>)
    ensures |stmts| <= |rows|
  {
    if rows == [] then []
    else RowStatements(table, rows[0], columns) + TableStatements(table, rows[1..], columns)
  }

  /** Every statement of an import, in order: tables in file order, rows in table order. */
  function ImportPlan(data: seq<(string, seq<Row>)>, schema: map<string, seq<string>>): (plan: seq<Statement>)
    ensures forall s :: s in plan ==> exists i :: 0 <= i < |data| && data[i].0 == s.table && data[i].1 != []
  {
    if data == [] then []
    else
      var rest := ImportPlan(data[1..], schema);
      TableWellFormed(data[0].0, data[0].1, Columns(schema, data[0].0));
      assert forall s :: s in rest ==> exists i :: 0 <= i < |data| && data[i].0 == s.table && data[i].1 != [] by {
        forall s | s in rest
          ensures exists i :: 0 <= i < |data| && data[i].0 == s.table && data[i].1 != []
        {
          var j :| 0 <= j < |data[1..]| && data[1..][j].0 == s.table && data[1..][j].1 != [];
          assert data[j + 1] == data[1..][j];
        }
      }
      (if data[0].1 == [] then [] else TableStatements(data[0].0, data[0].1, Columns(schema, data[0].0)))
      + rest
  }

  lemma {:induction false} TableAppend(table: string, a: seq<Row>, b: seq<Row>, columns: seq<string>)
    ensures TableStatements(table, a + b, columns) == TableStatements(table, a, columns) + TableStatements(table, b, columns)
  {
    if a != [] {
      assert (a + b)[0] == a[0];
      assert (a + b)[1..] == a[1..] + b;
      TableAppend(table, a[1..], b, columns);
    } else {
      assert a + b == b;
    }
  }

  lemma {:induction false} PlanAppend(a: seq<(string, seq<Row>)>, b: seq<(string, seq<Row>)>, schema: map<string, seq<string>>)
    ensures ImportPlan(a + b, schema) == ImportPlan(a, schema) + ImportPlan(b, schema)
  {
    if a != [] {
      assert (a + b)[0] == a[0];
      assert (a + b)[1..] == a[1..] + b;
      PlanAppend(a[1..], b, schema);
    } else {
      assert a + b == b;
    }
  }

  /** The plan is what comes before table `i`, that table's statements, and what follows. */
  lemma PlanAroundTable(data: seq<(string, seq<Row>)>, schema: map<string, seq<string>>, i: int)
    requires 0 <= i < |data| && data[i].1 != []
    ensures ImportPlan(data, schema) == ImportPlan(data[..i], schema) +
      (TableStatements(data[i].0, data[i].1, Columns(schema, data[i].0)) + ImportPlan(data[i + 1..], schema))
  {
    assert data == data[..i] + ([data[i]] + data[i + 1..]);
    PlanAppend(data[..i], [data[i]] + data[i + 1..], schema);
    PlanAppend([data[i]], data[i + 1..], schema);
    assert ImportPlan([data[i]], schema) == TableStatements(data[i].0, data[i].1, Columns(schema, data[i].0)) + [];
  }

  /** A table's statements are those of the rows before row `j`, that row's, and those after. */
  lemma TableAround(table: string, rows: seq<Row>, columns: seq<string>, j: int)
    requires 0 <= j < |rows|
    ensures TableStatements(table, rows, columns) == TableStatements(table, rows[..j], columns) +
      (RowStatements(table, rows[j], columns) + TableStatements(table, rows[j + 1..], columns))
  {
    assert rows == rows[..j] + ([rows[j]] + rows[j + 1..]);
    TableAppend(table, rows[..j], [rows[j]] + rows[j + 1..], columns);
    TableAppend(table, [rows[j]], rows[j + 1..], columns);
    assert TableStatements(table, [rows[j]], columns) == RowStatements(table, rows[j], columns) + [];
  }

  /** The plan after table `i` is the plan before it plus that table's statements. */
  lemma PlanStep(data: seq<(string, seq<Row>)>, schema: map<string, seq<string>>, i: int)
    requires 0 <= i < |data|
    ensures ImportPlan(data[..i + 1], schema) == ImportPlan(data[..i], schema) +
      (if data[i].1 == [] then [] else TableStatements(data[i].0, data[i].1, Columns(schema, data[i].0)))
  {
    assert data[..i + 1] == data[..i] + [data[i]];
    PlanAppend(data[..i], [data[i]], schema);
  }

  lemma TableStep(table: string, rows: seq<Row>, columns: seq<string>, j: int)
    requires 0 <= j < |rows|
    ensures TableStatements(table, rows[..j + 1], columns) ==
      TableStatements(table, rows[..j], columns) + RowStatements(table, rows[j], columns)
  {
    assert rows[..j + 1] == rows[..j] + [rows[j]];
    TableAppend(table, rows[..j], [rows[j]], columns);
    assert TableStatements(table, [rows[j]], columns) == RowStatements(table, rows[j], columns) + [];
  }

  /** Every planned statement names at least one column, only columns of its table, and binds one value per column. */
  lemma {:induction false} PlanWellFormed(data: seq<(string, seq<Row>)>, schema: map<string, seq<string>>)
    ensures forall s :: s in ImportPlan(data, schema) ==>
      && s.columns != [] && |s.values| == |s.columns|
      && forall c :: c in s.columns ==> c in Columns(schema, s.table)
  {
    if data != [] {
      PlanWellFormed(data[1..], schema);
      TableWellFormed(data[0].0, data[0].1, Columns(schema, data[0].0));
    }
  }

  lemma {:induction false} TableWellFormed(table: string, rows: seq<Row>, columns: seq<string>)
    ensures forall s :: s in TableStatements(table, rows, columns) ==>
      && s.table == table && s.columns != [] && |s.values| == |s.columns|
      && forall c :: c in s.columns ==> c in columns
  {
    if rows != [] {
      TableWellFormed(table, rows[1..], columns);
      var kept := FilterRow(rows[0], columns);
      if kept != [] {
        forall c | c in Keys(kept)
          ensures c in columns
        {
          var k :| 0 <= k < |kept| && Keys(kept)[k] == c;
          assert kept[k] in kept;
        }
      }
    }
  }

  /** `', '.join(['?' for _ in kept])` */
  function Placeholders(n: nat): string {
    Join2(Marks(n), ", ")
  }

  function Marks(n: nat): seq<string> {
    if n == 0 then [] else ["?"] + Marks(n - 1)
  }

  /** `sep.join(pieces)` for a separator of any length. */
  function Join2(pieces: seq<string>, sep: string): string {
    if pieces == [] then ""
    else if |pieces| == 1 then pieces[0]
    else pieces[0] + sep + Join2(pieces[1..], sep)
  }

  function CountChar(s: string, c: char): nat {
    if s == [] then 0 else (if s[0] == c then 1 else 0) + CountChar(s[1..], c)
  }

  lemma {:induction false} CountAppend(a: string, b: string, c: char)
    ensures CountChar(a + b, c) == CountChar(a, c) + CountChar(b, c)
  {
    if a != [] {
      assert (a + b)[1..] == a[1..] + b;
      CountAppend(a[1..], b, c);
    } else {
      assert a + b == b;
    }
  }

  /** One `?` per kept column. */
  lemma {:induction false} PlaceholderCount(n: nat)
    ensures CountChar(Placeholders(n), '?') == n
  {
    if n >= 2 {
      PlaceholderCount(n - 1);
      assert Marks(n)[1..] == Marks(n - 1);
      CountAppend("?", ", ", '?');
      CountAppend("?" + ", ", Placeholders(n - 1), '?');
    } else if n == 1 {
      assert Placeholders(1) == "?";
    }
  }

  /** The SQL text of a statement. */
  function Sql(s: Statement): (text: string)
    ensures "INSERT OR REPLACE INTO " + s.table + " (" <= text
    ensures text[|text| - 1] == ')'
  {
    "INSERT OR REPLACE INTO " + s.table + " (" + Join2(s.columns, ", ") + ") VALUES (" + Placeholders(|s.columns|) + ")"
  }

  lemma {:induction false} CountAbsent(s: string, c: char)
    requires c !in s
    ensures CountChar(s, c) == 0
  {
    if s != [] {
      assert forall x :: x in s[1..] ==> x in s;
      CountAbsent(s[1..], c);
    }
  }

  lemma {:induction false} JoinAvoids(pieces: seq<string>, sep: string, c: char)
    requires c !in sep && forall p :: p in pieces ==> c !in p
    ensures c !in Join2(pieces, sep)
  {
    if |pieces| >= 2 {
      assert pieces[0] in pieces;
      assert forall p :: p in pieces[1..] ==> p in pieces;
      JoinAvoids(pieces[1..], sep, c);
    } else if |pieces| == 1 {
      assert pieces[0] in pieces;
    }
  }

  /**
   * The statement text carries exactly one `?` per column, so each column's
   * value is bound to one placeholder, provided no table or column name
   * itself contains a `?`.
   */
  lemma SqlPlaceholders(s: Statement)
    requires '?' !in s.table && forall c :: c in s.columns ==> '?' !in c
    ensures CountChar(Sql(s), '?') == |s.columns|
  {
    var cols := Join2(s.columns, ", ");
    JoinAvoids(s.columns, ", ", '?');
    PlaceholderCount(|s.columns|);
    var head := "INSERT OR REPLACE INTO " + s.table + " (" + cols + ") VALUES (";
    assert '?' !in head;
    CountAbsent(head, '?');
    CountAbsent(")", '?');
    CountAppend(head, Placeholders(|s.columns|), '?');
    CountAppend(head + Placeholders(|s.columns|), ")", '?');
  }

  /**
   * The inner loop of `import_data` over one table's rows: filter each row to
   * the table's columns, skip it when nothing is left, otherwise execute its
   * statement; the first statement SQLite rejects ends the import.
   */
  method ImportRows(name: string, rows: seq<Row>, columns: seq<string>, accepts: Statement -> bool)
    returns (ok: bool, executed: seq<Statement>)
    ensures executed == UpToFailure(TableStatements(name, rows, columns), accepts)
    ensures ok <==> forall s :: s in TableStatements(name, rows, columns) ==> accepts(s)
  {
    executed := [];
    var j := 0;
    while j < |rows|
      invariant 0 <= j <= |rows|
      invariant executed == TableStatements(name, rows[..j], columns)
      invariant forall k :: 0 <= k < |executed| ==> accepts(executed[k])
    {
      var kept := FilterRow(rows[j], columns);
      TableStep(name, rows, columns, j);
      if kept != [] {
        var stmt := InsertOrReplace(name, Keys(kept), Values(kept));
        if !accepts(stmt) {
          TableAround(name, rows, columns, j);
          FailureEndsRun(executed, stmt, TableStatements(name, rows[j + 1..], columns), accepts);
          executed := executed + [stmt];
          return false, executed;
        }
        executed := executed + [stmt];
      }
      j := j + 1;
    }
    assert rows[..j] == rows;
    SuccessRunsAll(executed, accepts);
    ok := true;
  }

  /** A run that fails inside `part` never reaches what follows it. */
  lemma {:induction false} UpToFailureStopsInside<T>(done: seq<T>, part: seq<T>, rest: seq<T>, succeeds: T -> bool)
    requires forall k :: 0 <= k < |done| ==> succeeds(done[k])
    requires exists k :: 0 <= k < |part| && !succeeds(part[k])
    ensures UpToFailure(done + (part + rest), succeeds) == done + UpToFailure(part, succeeds)
  {
    UpToFailureSkips(done, part + rest, succeeds);
    StopsInside(part, rest, succeeds);
  }

  lemma {:induction false} StopsInside<T>(part: seq<T>, rest: seq<T>, succeeds: T -> bool)
    requires exists k :: 0 <= k < |part| && !succeeds(part[k])
    ensures UpToFailure(part + rest, succeeds) == UpToFailure(part, succeeds)
  {
    assert (part + rest)[0] == part[0];
    if succeeds(part[0]) {
      assert (part + rest)[1..] == part[1..] + rest;
      var k :| 0 <= k < |part| && !succeeds(part[k]);
      assert part[1..][k - 1] == part[k];
      StopsInside(part[1..], rest, succeeds);
    }
  }

  /**
   * `import_data`. `data` is the parsed export, `schema` the column lists,
   * and `accepts` says whether SQLite executes a statement without raising.
   * On a failure the rollback discards everything, so `committed` is empty.
   */
  method ImportData(data: seq<(string, seq<Row>)>, schema: map<string, seq<string>>, accepts: Statement -> bool)
    returns (ok: bool, executed: seq<Statement>, committed: seq<Statement>)
    ensures executed == UpToFailure(ImportPlan(data, schema), accepts)
    ensures ok <==> forall s :: s in ImportPlan(data, schema) ==> accepts(s)
    ensures committed == if ok then executed else []
  {
    executed := [];
    var i := 0;
    while i < |data|
      invariant 0 <= i <= |data|
      invariant executed == ImportPlan(data[..i], schema)
      invariant forall k :: 0 <= k < |executed| ==> accepts(executed[k])
    {
      var (name, rows) := data[i];
      if rows == [] {
        assert executed == ImportPlan(data[..i + 1], schema) by { PlanStep(data, schema, i); }
        i := i + 1;
        continue;
      }
      var columns := Columns(schema, name);
      var tableOk, tableExecuted := ImportRows(name, rows, columns, accepts);
      if !tableOk {
        assert executed + tableExecuted == UpToFailure(ImportPlan(data, schema), accepts)
            && !forall s :: s in ImportPlan(data, schema) ==> accepts(s) by {
          ImportStopsInTable(data, schema, i, executed, tableExecuted, accepts);
        }
        return false, executed + tableExecuted, [];
      }
      assert executed + tableExecuted == ImportPlan(data[..i + 1], schema)
          && forall k :: 0 <= k < |executed + tableExecuted| ==> accepts((executed + tableExecuted)[k]) by {
        ImportPassesTable(data, schema, i, executed, tableExecuted, accepts);
      }
      executed := executed + tableExecuted;
      i := i + 1;
    }
    assert UpToFailure(ImportPlan(data, schema), accepts) == executed
        && forall s :: s in ImportPlan(data, schema) ==> accepts(s) by {
      assert data[..i] == data;
      SuccessRunsAll(executed, accepts);
    }
    return true, executed, executed;
  }

  /** A table whose statements all succeed extends the run by all of them. */
  lemma ImportPassesTable(data: seq<(string, seq<Row>)>, schema: map<string, seq<string>>, i: int,
                          done: seq<Statement>, tableRun: seq<Statement>, accepts: Statement -> bool)
    requires 0 <= i < |data| && data[i].1 != []
    requires done == ImportPlan(data[..i], schema) && forall k :: 0 <= k < |done| ==> accepts(done[k])
    requires tableRun == UpToFailure(TableStatements(data[i].0, data[i].1, Columns(schema, data[i].0)), accepts)
    requires forall s :: s in TableStatements(data[i].0, data[i].1, Columns(schema, data[i].0)) ==> accepts(s)
    ensures done + tableRun == ImportPlan(data[..i + 1], schema)
    ensures forall k :: 0 <= k < |done + tableRun| ==> accepts((done + tableRun)[k])
  {
    var part := TableStatements(data[i].0, data[i].1, Columns(schema, data[i].0));
    assert forall k :: 0 <= k < |part| ==> accepts(part[k]) by {
      forall k | 0 <= k < |part| ensures accepts(part[k]) { assert part[k] in part; }
    }
    SuccessRunsAll(part, accepts);
    AllSucceed(done, tableRun, accepts);
    PlanStep(data, schema, i);
  }

  /** A table with a rejected statement ends the whole import inside that table. */
  lemma ImportStopsInTable(data: seq<(string, seq<Row>)>, schema: map<string, seq<string>>, i: int,
                           done: seq<Statement>, tableRun: seq<Statement>, accepts: Statement -> bool)
    requires 0 <= i < |data| && data[i].1 != []
    requires done == ImportPlan(data[..i], schema) && forall k :: 0 <= k < |done| ==> accepts(done[k])
    requires tableRun == UpToFailure(TableStatements(data[i].0, data[i].1, Columns(schema, data[i].0)), accepts)
    requires !forall s :: s in TableStatements(data[i].0, data[i].1, Columns(schema, data[i].0)) ==> accepts(s)
    ensures done + tableRun == UpToFailure(ImportPlan(data, schema), accepts)
    ensures !forall s :: s in ImportPlan(data, schema) ==> accepts(s)
  {
    var part := TableStatements(data[i].0, data[i].1, Columns(schema, data[i].0));
    var s :| s in part && !accepts(s);
    var k :| 0 <= k < |part| && part[k] == s;
    PlanAroundTable(data, schema, i);
    UpToFailureStopsInside(done, part, ImportPlan(data[i + 1..], schema), accepts);
    assert s in ImportPlan(data, schema);
  }

  lemma AllSucceed<T>(a: seq<T>, b: seq<T>, succeeds: T -> bool)
    requires forall k :: 0 <= k < |a| ==> succeeds(a[k])
    requires forall x :: x in b ==> succeeds(x)
    ensures forall k :: 0 <= k < |a + b| ==> succeeds((a + b)[k])
  {
    forall k | 0 <= k < |a + b|
      ensures succeeds((a + b)[k])
    {
      if k >= |a| {
        assert (a + b)[k] == b[k - |a|];
      }
    }
  }
}
