/**
 * `SQLiteDatabaseInitialiser`: checks every configured table's schema
 * against its `/sql/<table>.sql` file and, when a check fails, backs up the
 * database file and creates the tables again from those files, followed by
 * their `/sql/<table>-insert.sql` base data.
 *
 * The file system is a map from path to file length, the live schema a
 * function from table name to the stored `CREATE` text, and each statement
 * the initialiser inserts is appended to a log.
 */
module SQLiteInitialisers {
  import opened Wrappers
  import opened JavaText
  import opened PropertiesHandlers
  import opened SQLiteProperties
  import SQLFileExecutors

  /** `currentFilename` for a database name. */
  function DatabaseFile(databaseName: string): (r: string)
    ensures |r| == |databaseName| + 10
    ensures r[..7] == "sqlite/" && r[7..|r| - 3] == databaseName && r[|r| - 3..] == ".db"
  {
    "sqlite/" + databaseName + ".db"
  }

  /** `newFilename` for a database name and a `yyyyMMddHHmmss` timestamp. */
  function BackupFile(databaseName: string, timestamp: string): (r: string)
    ensures |r| == |databaseName| + |timestamp| + 12
    ensures r[..7] == "sqlite/" && r[7..7 + |databaseName|] == databaseName &&
            r[7 + |databaseName|] == '-' && r[8 + |databaseName|..|r| - 4] == timestamp && r[|r| - 4..] == ".bak"
  {
    "sqlite/" + databaseName + "-" + timestamp + ".bak"
  }

  /** A backup never has the name of a database file: one ends in `.bak`, the other in `.db`. */
  lemma BackupIsNotADatabase(databaseName: string, other: string, timestamp: string)
    ensures BackupFile(databaseName, timestamp) != DatabaseFile(other)
  {
    var b := BackupFile(databaseName, timestamp);
    var d := DatabaseFile(other);
    assert b[|b| - 1] == ".bak"[3] == 'k';
    assert d[|d| - 1] == ".db"[2] == 'b';
  }

  /** Backups of one database taken at different times have different names. */
  lemma BackupNamesDiffer(databaseName: string, t1: string, t2: string)
    requires BackupFile(databaseName, t1) == BackupFile(databaseName, t2)
    ensures t1 == t2
  {
    var b1 := BackupFile(databaseName, t1);
    var b2 := BackupFile(databaseName, t2);
    assert |t1| == |t2|;
    assert t1 == b1[8 + |databaseName|..|b1| - 4] == b2[8 + |databaseName|..|b2| - 4] == t2;
  }

  /** The live schema: the `sql` column of `sqlite_master` for a table, or null. */
  type Schema = string -> Option<string>

  /**
   * `verifyTable`: whether the stored schema is non-null and equal to the
   * table's SQL file. A missing file is a null dereference, and reading or
   * closing it can throw `IOException`.
   */
  function TableVerified(table: string, resources: Resources, schema: Schema): (r: Result<bool>)
    ensures var path := SQLFileExecutors.SqlPath(table);
      (path !in resources ==> r == Err(NullPointerException(""))) &&
      (path in resources && (resources[path].readFails || resources[path].closeFails) ==> r == Err(IOException)) &&
      (r.Ok? ==> path in resources && (r.value <==> schema(table) == Some(resources[path].text)))
  {
    var path := SQLFileExecutors.SqlPath(table);
    if path !in resources then Err(NullPointerException(""))
    else if resources[path].readFails || resources[path].closeFails then Err(IOException)
    else Ok(schema(table).Some? && schema(table).value == resources[path].text)
  }

  /** `verifyDatabase` over a table list: the outcome of the first table that does not pass, or true. */
  function VerifyTables(tables: seq<string>, resources: Resources, schema: Schema): Result<bool>
    decreases |tables|
  {
    if tables == [] then Ok(true)
    else
      var v := TableVerified(tables[0], resources, schema);
      if v != Ok(true) then v else VerifyTables(tables[1..], resources, schema)
  }

  /** The database verifies exactly when every table does. */
  lemma {:induction false} VerifyTablesAllPass(tables: seq<string>, resources: Resources, schema: Schema)
    ensures VerifyTables(tables, resources, schema) == Ok(true) <==>
      forall i :: 0 <= i < |tables| ==> TableVerified(tables[i], resources, schema) == Ok(true)
    decreases |tables|
  {
    if tables != [] {
      VerifyTablesAllPass(tables[1..], resources, schema);
      if TableVerified(tables[0], resources, schema) == Ok(true) {
        forall i | 0 < i < |tables|
          ensures tables[i] == tables[1..][i - 1]
        {
        }
      }
    }
  }

  /**
   * The outcome is that of the first table that does not pass, whatever
   * the later tables hold: they are never checked.
   */
  lemma {:induction false} VerifyTablesFirstFailure(tables: seq<string>, resources: Resources, schema: Schema, i: nat)
    requires i < |tables| && TableVerified(tables[i], resources, schema) != Ok(true)
    requires forall j :: 0 <= j < i ==> TableVerified(tables[j], resources, schema) == Ok(true)
    ensures VerifyTables(tables, resources, schema) == TableVerified(tables[i], resources, schema)
    decreases i
  {
    if i > 0 {
      forall j | 0 <= j < i - 1
        ensures TableVerified(tables[1..][j], resources, schema) == Ok(true)
      {
        assert tables[1..][j] == tables[j + 1];
      }
      VerifyTablesFirstFailure(tables[1..], resources, schema, i - 1);
    }
  }

  /** The statements an operation inserted, in order, and how it ended. */
  datatype Effect = Effect(inserted: seq<string>, outcome: Outcome)

  /** A resource that exists and reads and closes without error. */
  predicate Readable(path: string, resources: Resources)
  {
    path in resources && !resources[path].readFails && !resources[path].closeFails
  }

  /**
   * `initTable`: a missing file throws `InsertFailedException` and a failing
   * read `IOException`, before any insert; otherwise every `;`-fragment of
   * the file is inserted, in order, empty ones included, and a failing
   * close then throws `IOException`.
   */
  function InitTableEffect(table: string, resources: Resources): Effect
  {
    var path := SQLFileExecutors.SqlPath(table);
    if path !in resources then Effect([], Err(InsertFailedException))
    else if resources[path].readFails then Effect([], Err(IOException))
    else Effect(Split(resources[path].text, ";"), if resources[path].closeFails then Err(IOException) else Done)
  }

  /**
   * `initTable` fails before inserting anything exactly when its file is
   * missing or unreadable, and otherwise inserts every `;`-fragment of the
   * file; it returns normally exactly when the file is readable.
   */
  lemma InitTableCases(table: string, resources: Resources)
    ensures var path := SQLFileExecutors.SqlPath(table);
      var e := InitTableEffect(table, resources);
      (path !in resources ==> e == Effect([], Err(InsertFailedException))) &&
      (path in resources && resources[path].readFails ==> e == Effect([], Err(IOException))) &&
      (path in resources && !resources[path].readFails ==>
        e.inserted == Split(resources[path].text, ";") &&
        (e.outcome.Ok? <==> !resources[path].closeFails)) &&
      (e.outcome.Ok? <==> Readable(path, resources))
  {
  }

  /** The base-data file that belongs to a table. */
  function InsertFile(table: string): string
  {
    table + "-insert"
  }

  /**
   * One table of `initDatabase`: its SQL file, then, once that returned,
   * its base-data file. It returns normally exactly when both files are
   * readable.
   */
  function TableEffect(table: string, resources: Resources): (e: Effect)
    ensures e.outcome.Ok? <==>
      Readable(SQLFileExecutors.SqlPath(table), resources) && Readable(SQLFileExecutors.SqlPath(InsertFile(table)), resources)
  {
    var created := InitTableEffect(table, resources);
    InitTableCases(table, resources);
    InitTableCases(InsertFile(table), resources);
    if created.outcome.Err? then created
    else After(created.inserted, InitTableEffect(InsertFile(table), resources))
  }

  /**
   * `initDatabase` over a table list: each table's file, then its
   * base-data file, in order, stopping at the first exception.
   */
  function InitTables(tables: seq<string>, resources: Resources): Effect
    decreases |tables|
  {
    if tables == [] then Effect([], Done)
    else
      var first := TableEffect(tables[0], resources);
      if first.outcome.Err? then first
      else After(first.inserted, InitTables(tables[1..], resources))
  }

  /** An effect preceded by statements already inserted. */
  function After(done: seq<string>, e: Effect): Effect
  {
    Effect(done + e.inserted, e.outcome)
  }

  /** Statements inserted before statements inserted before an effect. */
  lemma AfterAfter(done: seq<string>, more: seq<string>, e: Effect)
    ensures After(done, After(more, e)) == After(done + more, e)
  {
    assert done + (more + e.inserted) == done + more + e.inserted;
  }

  /** One table of `InitTables`, starting at index `i`. */
  lemma InitTablesStep(tables: seq<string>, i: nat, resources: Resources)
    requires i < |tables|
    ensures var first := TableEffect(tables[i], resources);
      InitTables(tables[i..], resources) ==
        if first.outcome.Err? then first else After(first.inserted, InitTables(tables[i + 1..], resources))
  {
    assert tables[i..][0] == tables[i];
    assert tables[i..][1..] == tables[i + 1..];
  }

  /** One table of `InitTables` after statements already inserted, in the two ways it can end. */
  lemma InitTablesStepAfter(tables: seq<string>, i: nat, resources: Resources, done: seq<string>)
    requires i < |tables|
    ensures var first := TableEffect(tables[i], resources);
      && (first.outcome.Err? ==> After(done, InitTables(tables[i..], resources)) == After(done, first))
      && (first.outcome.Ok? ==>
            After(done, InitTables(tables[i..], resources)) == After(done + first.inserted, InitTables(tables[i + 1..], resources)))
  {
    var first := TableEffect(tables[i], resources);
    InitTablesStep(tables, i, resources);
    if first.outcome.Ok? {
      AfterAfter(done, first.inserted, InitTables(tables[i + 1..], resources));
    }
  }

  /**
   * Initialising succeeds exactly when every table has a readable SQL file
   * and a readable base-data file: a table without `-insert.sql` data
   * makes the whole initialisation fail.
   */
  lemma {:induction false} InitTablesSucceed(tables: seq<string>, resources: Resources)
    ensures InitTables(tables, resources).outcome.Ok? <==>
      forall i :: 0 <= i < |tables| ==>
        Readable(SQLFileExecutors.SqlPath(tables[i]), resources) &&
        Readable(SQLFileExecutors.SqlPath(InsertFile(tables[i])), resources)
    decreases |tables|
  {
    if tables != [] {
      InitTablesSucceed(tables[1..], resources);
      forall i | 0 < i < |tables|
        ensures tables[i] == tables[1..][i - 1]
      {
      }
    }
  }

  /** `File.length`: the length of a file, 0 when it does not exist. */
  function Length(files: map<string, nat>, path: string): (n: nat)
    ensures n > 0 ==> path in files
  {
    if path in files then files[path] else 0
  }

  /** `File.renameTo` that succeeds: the file moves to its new name, with its contents. */
  function Renamed(files: map<string, nat>, from: string, to: string): (r: map<string, nat>)
    requires from in files
    ensures to in r && r[to] == files[from]
    ensures from != to ==> from !in r
    ensures forall p :: p != from && p != to ==> (p in r <==> p in files) && (p in files ==> r[p] == files[p])
  {
    (files - {from})[to := files[from]]
  }

  /** The files after a backup that renames a non-empty database file and leaves an empty one. */
  function BackedUp(files: map<string, nat>, databaseName: string, timestamp: string): (r: map<string, nat>)
    ensures Length(files, DatabaseFile(databaseName)) == 0 ==> r == files
    ensures Length(files, DatabaseFile(databaseName)) > 0 ==>
      DatabaseFile(databaseName) !in r && BackupFile(databaseName, timestamp) in r &&
      r[BackupFile(databaseName, timestamp)] == files[DatabaseFile(databaseName)]
  {
    var current := DatabaseFile(databaseName);
    BackupIsNotADatabase(databaseName, databaseName, timestamp);
    if Length(files, current) > 0 then Renamed(files, current, BackupFile(databaseName, timestamp)) else files
  }

  /** Whether a path lies in the `sqlite/` database directory. */
  predicate InDatabaseDirectory(path: string)
  {
    |path| >= 7 && path[..7] == "sqlite/"
  }

  // ---------------------------------------------------------------------
  // What each step of `init` does, from the state it starts in
  // ---------------------------------------------------------------------

  /**
   * The outcome of a step of `init`: the statements it inserted and how it
   * ended, the files afterwards, and what the properties singleton has
   * loaded afterwards.
   */
  datatype Run = Run(effect: Effect, files: map<string, nat>, after: Loaded)

  /** `verifyDatabase`: the configured tables, loaded if need be, then checked in order. */
  function Verification(before: Loaded, caller: Resources, load: Loader, schema: Schema): Loading<bool>
    requires ConfigDelimiter(caller, load)
  {
    var tables := TableNamesLoading(before, caller, load);
    Loading(if tables.result.Err? then Err(tables.result.fault) else VerifyTables(tables.result.value, caller, schema),
            tables.after)
  }

  /** `initDatabase`: the configured tables, loaded if need be, then initialised in order. */
  function Initialised(before: Loaded, files: map<string, nat>, caller: Resources, load: Loader): Run
    requires ConfigDelimiter(caller, load)
  {
    var tables := TableNamesLoading(before, caller, load);
    Run(if tables.result.Err? then Effect([], Err(tables.result.fault)) else InitTables(tables.result.value, caller),
        files, tables.after)
  }

  /** The database name `getDatabaseName` gave, dereferenced: a null name is a `NullPointerException`. */
  function Named(name: Result<Option<string>>): (r: Result<string>)
    ensures r.Ok? <==> name.Ok? && name.value.Some?
    ensures r.Ok? ==> r.value == name.value.value
    ensures name.Err? ==> r == Err(name.fault)
    ensures name == Ok(None) ==> r == Err(NullPointerException(""))
  {
    if name.Err? then Err(name.fault)
    else if name.value.None? then Err(NullPointerException(""))
    else Ok(name.value.value)
  }

  /**
   * `backupDatabase`: the database name, loaded if need be; then a
   * non-empty database file is renamed to its backup name, or
   * `DatabaseBackupException` is thrown when `renames` says the rename
   * fails; an empty or absent one is left alone.
   */
  function BackupRun(before: Loaded, files: map<string, nat>, caller: Resources, load: Loader,
                     timestamp: string, renames: bool): Run
    requires ConfigDelimiter(caller, load)
  {
    var name := DatabaseNameLoading(before, caller, load);
    var named := Named(name.result);
    if named.Err? then Run(Effect([], Err(named.fault)), files, name.after)
    else
      var current := DatabaseFile(named.value);
      if Length(files, current) == 0 then Run(Effect([], Done), files, name.after)
      else if renames then Run(Effect([], Done), Renamed(files, current, BackupFile(named.value, timestamp)), name.after)
      else Run(Effect([], Err(DatabaseBackupException)), files, name.after)
  }

  /**
   * The body of the `if` in `init`: verify; when that gives false, back up
   * and then initialise every table again.
   */
  function Reinitialised(before: Loaded, files: map<string, nat>, caller: Resources, load: Loader, schema: Schema,
                         timestamp: string, renames: bool): Run
    requires ConfigDelimiter(caller, load)
  {
    var verified := Verification(before, caller, load, schema);
    if verified.result != Ok(false) then
      Run(Effect([], if verified.result.Err? then Err(verified.result.fault) else Done), files, verified.after)
    else
      var backup := BackupRun(verified.after, files, caller, load, timestamp, renames);
      if backup.effect.outcome.Err? then backup
      else Initialised(backup.after, backup.files, caller, load)
  }

  /** A database that verifies, or whose check throws, is left as it is: nothing is backed up or inserted. */
  lemma VerifiedDatabaseIsKept(before: Loaded, files: map<string, nat>, caller: Resources, load: Loader, schema: Schema,
                               timestamp: string, renames: bool)
    requires ConfigDelimiter(caller, load)
    requires Verification(before, caller, load, schema).result != Ok(false)
    ensures var run := Reinitialised(before, files, caller, load, schema, timestamp, renames);
      && run.effect.inserted == [] && run.files == files
      && (run.effect.outcome.Ok? <==> Verification(before, caller, load, schema).result == Ok(true))
  {
    var verified := Verification(before, caller, load, schema);
    var run := Reinitialised(before, files, caller, load, schema, timestamp, renames);
    assert run == Run(Effect([], if verified.result.Err? then Err(verified.result.fault) else Done), files, verified.after);
    if verified.result.Ok? {
      assert verified.result.value;
    }
  }

  /**
   * When verification fails, the database file is backed up before
   * anything is inserted: a rebuild that got as far as inserting has
   * renamed a non-empty database file to its backup name.
   */
  lemma RebuildBacksUpFirst(before: Loaded, files: map<string, nat>, caller: Resources, load: Loader, schema: Schema,
                            timestamp: string, renames: bool)
    requires ConfigDelimiter(caller, load)
    requires Verification(before, caller, load, schema).result == Ok(false)
    ensures var run := Reinitialised(before, files, caller, load, schema, timestamp, renames);
      var name := DatabaseNameLoading(Verification(before, caller, load, schema).after, caller, load).result;
      run.effect.inserted != [] ==>
        name.Ok? && name.value.Some? && run.files == BackedUp(files, name.value.value, timestamp)
  {
    var verified := Verification(before, caller, load, schema);
    var backup := BackupRun(verified.after, files, caller, load, timestamp, renames);
    if backup.effect.outcome.Ok? {
      var name := DatabaseNameLoading(verified.after, caller, load).result;
      assert Named(name).Ok?;
    }
  }

  /**
   * A rebuild initialises exactly the tables it verified, and succeeds
   * only when each has a readable SQL file and a readable base-data file.
   * This holds when the singleton had not loaded the table list before,
   * or had loaded the database name too; a list loaded without the name,
   * through another caller, is replaced when the name is loaded.
   */
  lemma {:induction false} RebuildInitialisesVerifiedTables(before: Loaded, files: map<string, nat>, caller: Resources,
                                                            load: Loader, schema: Schema, timestamp: string, renames: bool)
    requires ConfigDelimiter(caller, load)
    requires before.tableNames.None? || before.databaseName.Some?
    requires Verification(before, caller, load, schema).result == Ok(false)
    ensures var run := Reinitialised(before, files, caller, load, schema, timestamp, renames);
      var tables := TableNamesLoading(before, caller, load).result.value;
      run.effect.outcome.Ok? ==>
        && run.effect == InitTables(tables, caller)
        && forall i :: 0 <= i < |tables| ==>
             Readable(SQLFileExecutors.SqlPath(tables[i]), caller) &&
             Readable(SQLFileExecutors.SqlPath(InsertFile(tables[i])), caller)
  {
    var verified := Verification(before, caller, load, schema);
    var tables := TableNamesLoading(before, caller, load);
    var name := DatabaseNameLoading(verified.after, caller, load);
    var backup := BackupRun(verified.after, files, caller, load, timestamp, renames);
    if backup.effect.outcome.Ok? {
      assert Named(name.result).Ok?;
      if before.tableNames.None? {
        // The list was loaded together with the name, which is therefore
        // not reloaded.
        assert verified.after.databaseName.Some?;
      }
      assert name.after == verified.after;
      assert TableNamesLoading(backup.after, caller, load).result == Ok(tables.result.value);
      InitTablesSucceed(tables.result.value, caller);
    }
  }

  /**
   * As written, `init` verifies only when `mkdirs()` has just created the
   * database directory, which then holds no file; so the backup it may go
   * on to make never renames anything.
   */
  lemma InitNeverBacksUp(before: Loaded, files: map<string, nat>, caller: Resources, load: Loader, schema: Schema,
                         timestamp: string, renames: bool)
    requires ConfigDelimiter(caller, load)
    requires forall p :: p in files ==> !InDatabaseDirectory(p)
    ensures Reinitialised(before, files, caller, load, schema, timestamp, renames).files == files
  {
    var verified := Verification(before, caller, load, schema);
    var name := DatabaseNameLoading(verified.after, caller, load);
    if Named(name.result).Ok? {
      assert InDatabaseDirectory(DatabaseFile(Named(name.result).value));
    }
  }

  class SQLiteDatabaseInitialiser {
    /** What the calling class can load. */
    const caller: Resources
    /** The `SQLiteDatabaseProperties` singleton slot. */
    const registry: PropertiesRegistry
    const load: Loader
    const schema: Schema
    /** The statements handed to the controller's `insert`, in order. */
    var inserted: seq<string>
    /** The file system: the length of each file by path. */
    var files: map<string, nat>

    constructor (caller: Resources, registry: PropertiesRegistry, load: Loader, schema: Schema, files: map<string, nat>)
      ensures this.caller == caller && this.registry == registry && this.load == load && this.schema == schema
      ensures inserted == [] && this.files == files
    {
      this.caller := caller;
      this.registry := registry;
      this.load := load;
      this.schema := schema;
      inserted := [];
      this.files := files;
    }

    /** What the properties singleton has loaded: nothing before it exists. */
    function Props(): Loaded
      reads registry, registry.instance
    {
      if registry.instance == null then Loaded(None, None) else registry.instance.State()
    }

    /**
     * `verifyDatabase`: the configured tables, checked in order; the first
     * one that fails, or throws, decides the outcome.
     */
    method VerifyDatabase() returns (r: Result<bool>)
      requires ConfigDelimiter(caller, load)
      modifies registry, registry.instance
      ensures registry.instance != null && registry.instance.caller == caller
      ensures old(registry.instance) == null ==> fresh(registry.instance)
      ensures old(registry.instance) != null ==> registry.instance == old(registry.instance)
      ensures Loading(r, Props()) == Verification(old(Props()), caller, load, schema)
    {
      var properties := registry.GetInstance(caller);
      var names := properties.GetTableNames(load);
      if names.Err? {
        return Err(names.fault);
      }
      var ts := names.value;
      var i := 0;
      while i < |ts|
        invariant 0 <= i <= |ts|
        invariant VerifyTables(ts, caller, schema) == VerifyTables(ts[i..], caller, schema)
      {
        var v := TableVerified(ts[i], caller, schema);
        assert ts[i..][1..] == ts[i + 1..];
        if v.Err? {
          return Err(v.fault);
        }
        if !v.value {
          return Ok(false);
        }
        i := i + 1;
      }
      r := Ok(true);
    }

    /** `initTable`: inserts the `;`-fragments of the table's SQL file, one by one. */
    method InitTable(table: string) returns (r: Outcome)
      modifies this
      ensures files == old(files)
      ensures inserted == old(inserted) + InitTableEffect(table, caller).inserted
      ensures r == InitTableEffect(table, caller).outcome
    {
      var path := SQLFileExecutors.SqlPath(table);
      if path !in caller {
        return Err(InsertFailedException);
      }
      var resource := caller[path];
      if resource.readFails {
        return Err(IOException);
      }
      var queries := InitTableEffect(table, caller).inserted;
      var i := 0;
      while i < |queries|
        invariant 0 <= i <= |queries|
        invariant files == old(files)
        invariant inserted == old(inserted) + queries[..i]
      {
        assert queries[..i + 1] == queries[..i] + [queries[i]];
        inserted := inserted + [queries[i]];
        i := i + 1;
      }
      assert queries[..i] == queries;
      r := if resource.closeFails then Err(IOException) else Done;
    }

    /**
     * `initDatabase`: for each configured table, in order, its SQL file and
     * then its base-data file.
     */
    method InitDatabase() returns (r: Outcome)
      requires ConfigDelimiter(caller, load)
      modifies this, registry, registry.instance
      ensures registry.instance != null && registry.instance.caller == caller
      ensures old(registry.instance) == null ==> fresh(registry.instance)
      ensures old(registry.instance) != null ==> registry.instance == old(registry.instance)
      ensures var run := Initialised(old(Props()), old(files), caller, load);
        inserted == old(inserted) + run.effect.inserted && r == run.effect.outcome && files == run.files && Props() == run.after
    {
      var properties := registry.GetInstance(caller);
      var names := properties.GetTableNames(load);
      if names.Err? {
        return Err(names.fault);
      }
      r := InitTableList(names.value);
    }

    /** The body of `initDatabase`'s loop: `initTable(table)`, then `initTable(table + "-insert")`. */
    method InitTablePair(table: string) returns (r: Outcome)
      modifies this
      ensures files == old(files)
      ensures inserted == old(inserted) + TableEffect(table, caller).inserted
      ensures r == TableEffect(table, caller).outcome
    {
      var created := InitTable(table);
      if created.Err? {
        return created;
      }
      ghost var middle := inserted;
      r := InitTable(InsertFile(table));
      assert old(inserted) + (middle[|old(inserted)|..] + InitTableEffect(InsertFile(table), caller).inserted) == inserted;
    }

    /** The loop of `initDatabase`: each table's SQL file and then its base-data file, stopping at the first exception. */
    method InitTableList(tables: seq<string>) returns (r: Outcome)
      modifies this
      ensures files == old(files)
      ensures inserted == old(inserted) + InitTables(tables, caller).inserted
      ensures r == InitTables(tables, caller).outcome
    {
      var i := 0;
      assert tables[0..] == tables;
      while i < |tables|
        invariant 0 <= i <= |tables|
        invariant files == old(files)
        invariant After(inserted, InitTables(tables[i..], caller)) == After(old(inserted), InitTables(tables, caller))
      {
        InitTablesStepAfter(tables, i, caller, inserted);
        var done := InitTablePair(tables[i]);
        if done.Err? {
          return done;
        }
        i := i + 1;
      }
      assert inserted + [] == inserted;
      r := Done;
    }

    /** `currentFilename`: the database file's path; a null database name is dereferenced. */
    method CurrentFilename() returns (r: Result<string>)
      requires ConfigDelimiter(caller, load)
      modifies registry, registry.instance
      ensures registry.instance != null && registry.instance.caller == caller
      ensures old(registry.instance) == null ==> fresh(registry.instance)
      ensures old(registry.instance) != null ==> registry.instance == old(registry.instance)
      ensures var name := DatabaseNameLoading(old(Props()), caller, load);
        var named := Named(name.result);
        Props() == name.after && r == if named.Err? then Err(named.fault) else Ok(DatabaseFile(named.value))
    {
      var properties := registry.GetInstance(caller);
      var name := properties.GetDatabaseName(load);
      if name.Err? {
        return Err(name.fault);
      }
      if name.value.None? {
        return Err(NullPointerException(""));
      }
      r := Ok(DatabaseFile(name.value.value));
    }

    /** `newFilename`: the backup file's path, named with the given time. */
    method NewFilename(timestamp: string) returns (r: Result<string>)
      requires ConfigDelimiter(caller, load)
      modifies registry, registry.instance
      ensures registry.instance != null && registry.instance.caller == caller
      ensures old(registry.instance) == null ==> fresh(registry.instance)
      ensures old(registry.instance) != null ==> registry.instance == old(registry.instance)
      ensures var name := DatabaseNameLoading(old(Props()), caller, load);
        var named := Named(name.result);
        Props() == name.after && r == if named.Err? then Err(named.fault) else Ok(BackupFile(named.value, timestamp))
    {
      var properties := registry.GetInstance(caller);
      var name := properties.GetDatabaseName(load);
      if name.Err? {
        return Err(name.fault);
      }
      if name.value.None? {
        return Err(NullPointerException(""));
      }
      r := Ok(BackupFile(name.value.value, timestamp));
    }

    /**
     * `backupDatabase`: a non-empty database file is renamed to its backup
     * name, or `DatabaseBackupException` is thrown when the rename fails;
     * an empty or absent one is left alone. `renames` is whether
     * `File.renameTo` succeeds.
     */
    method BackupDatabase(timestamp: string, renames: bool) returns (r: Outcome)
      requires ConfigDelimiter(caller, load)
      modifies this, registry, registry.instance
      ensures inserted == old(inserted)
      ensures registry.instance != null && registry.instance.caller == caller
      ensures old(registry.instance) == null ==> fresh(registry.instance)
      ensures old(registry.instance) != null ==> registry.instance == old(registry.instance)
      ensures var run := BackupRun(old(Props()), old(files), caller, load, timestamp, renames);
        r == run.effect.outcome && files == run.files && Props() == run.after
    {
      var current := CurrentFilename();
      if current.Err? {
        return Err(current.fault);
      }
      var backup := NewFilename(timestamp);
      if Length(files, current.value) > 0 {
        if renames {
          files := Renamed(files, current.value, backup.value);
        } else {
          return Err(DatabaseBackupException);
        }
      }
      r := Done;
    }

    /**
     * `init` as written: `mkdirs()` reports whether it created the
     * database directory (`created`), and only then is the database
     * verified; only a failed verification leads to a backup and a fresh
     * initialisation.
     */
    method Init(created: bool, timestamp: string, renames: bool) returns (r: Outcome)
      requires ConfigDelimiter(caller, load)
      modifies this, registry, registry.instance
      ensures !created ==> r == Done && inserted == old(inserted) && files == old(files) && Props() == old(Props())
      ensures created ==>
        var run := Reinitialised(old(Props()), old(files), caller, load, schema, timestamp, renames);
        inserted == old(inserted) + run.effect.inserted && r == run.effect.outcome && files == run.files && Props() == run.after
    {
      if created {
        r := Reinitialise(timestamp, renames);
      } else {
        r := Done;
      }
    }

    /**
     * The body of the `if` in `init`: verify, and on failure back up and
     * initialise again.
     */
    method Reinitialise(timestamp: string, renames: bool) returns (r: Outcome)
      requires ConfigDelimiter(caller, load)
      modifies this, registry, registry.instance
      ensures var run := Reinitialised(old(Props()), old(files), caller, load, schema, timestamp, renames);
        inserted == old(inserted) + run.effect.inserted && r == run.effect.outcome && files == run.files && Props() == run.after
    {
      var v := VerifyDatabase();
      if v.Err? {
        return Err(v.fault);
      }
      if v.value {
        assert inserted == inserted + [];
        return Done;
      }
      var b := BackupDatabase(timestamp, renames);
      if b.Err? {
        assert inserted == inserted + [];
        return b;
      }
      r := InitDatabase();
    }

    /**
     * `init` as its documentation describes it: the directory is created
     * if need be, and the database is verified whether or not it was; a
     * database that does not verify is backed up and rebuilt.
     */
    method InitAlwaysVerifying(timestamp: string, renames: bool) returns (r: Outcome)
      requires ConfigDelimiter(caller, load)
      modifies this, registry, registry.instance
      ensures var run := Reinitialised(old(Props()), old(files), caller, load, schema, timestamp, renames);
        inserted == old(inserted) + run.effect.inserted && r == run.effect.outcome && files == run.files && Props() == run.after
      ensures var verified := Verification(old(Props()), caller, load, schema).result;
        verified != Ok(false) ==>
          inserted == old(inserted) && files == old(files) && (r.Ok? <==> verified == Ok(true))
      ensures var verified := Verification(old(Props()), caller, load, schema).result;
        var tables := TableNamesLoading(old(Props()), caller, load).result;
        verified == Ok(false) && r.Ok? && (old(Props()).tableNames.None? || old(Props()).databaseName.Some?) ==>
          && inserted == old(inserted) + InitTables(tables.value, caller).inserted
          && forall i :: 0 <= i < |tables.value| ==>
               Readable(SQLFileExecutors.SqlPath(tables.value[i]), caller) &&
               Readable(SQLFileExecutors.SqlPath(InsertFile(tables.value[i])), caller)
    {
      ghost var before, files0 := Props(), files;
      r := Reinitialise(timestamp, renames);
      if Verification(before, caller, load, schema).result != Ok(false) {
        VerifiedDatabaseIsKept(before, files0, caller, load, schema, timestamp, renames);
      } else if before.tableNames.None? || before.databaseName.Some? {
        RebuildInitialisesVerifiedTables(before, files0, caller, load, schema, timestamp, renames);
      }
    }
  }
}
