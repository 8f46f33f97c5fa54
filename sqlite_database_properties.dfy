/**
 * `SQLiteDatabaseProperties`: the one object that reads the database name
 * and the table list from `/config/dbutils.properties`, lazily, through the
 * class most recently handed to `getInstance`.
 */
module SQLiteProperties {
  import opened Wrappers
  import opened JavaText
  import opened PropertiesHandlers
  import ParameterParser

  /** The resource path of the library's config file. */
  const ConfigFile := "/config/dbutils.properties"

  /** `Properties.getProperty`: the key's value, or null. */
  function Lookup(properties: Properties, key: string): (r: Option<string>)
    ensures r.Some? <==> key in properties
    ensures r.Some? ==> r.value == properties[key]
  {
    if key in properties then Some(properties[key]) else None
  }

  /** The `delimiter` property, when set, names a literal, non-empty separator. */
  predicate LiteralDelimiter(properties: Properties)
  {
    "delimiter" in properties ==> ParameterParser.LiteralKey(properties["delimiter"])
  }

  /**
   * The `tableNames` property split by the `delimiter` property, in order;
   * either property being absent is a null dereference.
   */
  function TableNames(properties: Properties): (r: Result<seq<string>>)
    requires LiteralDelimiter(properties)
    ensures r.Ok? <==> "tableNames" in properties && "delimiter" in properties
    ensures r.Err? ==> r.fault == NullPointerException("")
    ensures r.Ok? ==> r.value == Split(properties["tableNames"], properties["delimiter"])
  {
    if "tableNames" !in properties || "delimiter" !in properties then Err(NullPointerException(""))
    else Ok(Split(properties["tableNames"], properties["delimiter"]))
  }

  /** What `caller` loads as the config file satisfies `LiteralDelimiter`. */
  predicate ConfigDelimiter(caller: Resources, load: Loader)
  {
    ConfigFile in caller ==> LiteralDelimiter(load(caller[ConfigFile].text))
  }

  /** What a properties object has loaded: `databaseName` and `tableNames`, each null until set. */
  datatype Loaded = Loaded(databaseName: Option<string>, tableNames: Option<seq<string>>)

  /** The result of a call on a properties object, and what it has loaded afterwards. */
  datatype Loading<T> = Loading(result: Result<T>, after: Loaded)

  /**
   * `getProperties` from what was loaded before: a missing file throws
   * `FileNotFoundException` and a failing read `IOException`, with nothing
   * set; the name is set before the table list, so an absent table list or
   * delimiter throws `NullPointerException` with only the name set; a
   * failing close throws `IOException` with both set.
   */
  function Load(before: Loaded, caller: Resources, load: Loader): (r: Loading<()>)
    requires ConfigDelimiter(caller, load)
    ensures ConfigFile !in caller ==> r == Loading(Err(FileNotFoundException), before)
    ensures ConfigFile in caller && caller[ConfigFile].readFails ==> r == Loading(Err(IOException), before)
    ensures ConfigFile in caller && !caller[ConfigFile].readFails ==>
      var properties := load(caller[ConfigFile].text);
      var names := TableNames(properties);
      && r.after.databaseName == Lookup(properties, "databaseName")
      && (names.Err? ==> r.result == Err(names.fault) && r.after.tableNames == before.tableNames)
      && (names.Ok? ==> r.after.tableNames == Some(names.value) &&
                        r.result == if caller[ConfigFile].closeFails then Err(IOException) else Done)
    ensures r.result.Ok? ==> r.after.tableNames.Some?
  {
    if ConfigFile !in caller then Loading(Err(FileNotFoundException), before)
    else if caller[ConfigFile].readFails then Loading(Err(IOException), before)
    else
      var properties := load(caller[ConfigFile].text);
      var name := Lookup(properties, "databaseName");
      match TableNames(properties)
      case Err(fault) => Loading(Err(fault), Loaded(name, before.tableNames))
      case Ok(names) =>
        Loading(if caller[ConfigFile].closeFails then Err(IOException) else Done, Loaded(name, Some(names)))
  }

  /** `getDatabaseName` from what was loaded before: the file is read only while the name is null. */
  function DatabaseNameLoading(before: Loaded, caller: Resources, load: Loader): (r: Loading<Option<string>>)
    requires ConfigDelimiter(caller, load)
    ensures before.databaseName.Some? ==> r == Loading(Ok(before.databaseName), before)
    ensures before.databaseName.None? && r.result.Ok? ==>
      ConfigFile in caller && r.result.value == r.after.databaseName &&
      r.after.databaseName == Lookup(load(caller[ConfigFile].text), "databaseName") && r.after.tableNames.Some?
    ensures r.result.Err? ==>
      before.databaseName.None? && r.result.fault in {FileNotFoundException, IOException, NullPointerException("")}
  {
    if before.databaseName.Some? then Loading(Ok(before.databaseName), before)
    else
      var loaded := Load(before, caller, load);
      if loaded.result.Err? then Loading(Err(loaded.result.fault), loaded.after)
      else Loading(Ok(loaded.after.databaseName), loaded.after)
  }

  /** `getTableNames` from what was loaded before: the file is read only while the list is null. */
  function TableNamesLoading(before: Loaded, caller: Resources, load: Loader): (r: Loading<seq<string>>)
    requires ConfigDelimiter(caller, load)
    ensures before.tableNames.Some? ==> r == Loading(Ok(before.tableNames.value), before)
    ensures before.tableNames.None? && r.result.Ok? ==>
      ConfigFile in caller && TableNames(load(caller[ConfigFile].text)) == Ok(r.result.value)
    ensures r.result.Ok? ==> r.after.tableNames == Some(r.result.value)
    ensures r.result.Err? ==>
      before.tableNames.None? && r.result.fault in {FileNotFoundException, IOException, NullPointerException("")}
  {
    if before.tableNames.Some? then Loading(Ok(before.tableNames.value), before)
    else
      var loaded := Load(before, caller, load);
      if loaded.result.Err? then Loading(Err(loaded.result.fault), loaded.after)
      else Loading(Ok(loaded.after.tableNames.value), loaded.after)
  }

  class SQLiteDatabaseProperties {
    /** What the class last passed to `getInstance` can load. */
    var caller: Resources
    var databaseName: Option<string>
    var tableNames: Option<seq<string>>

    constructor (caller: Resources)
      ensures this.caller == caller && databaseName == None && tableNames == None
    {
      this.caller := caller;
      databaseName := None;
      tableNames := None;
    }

    /** What this object has loaded. */
    function State(): Loaded
      reads this
    {
      Loaded(databaseName, tableNames)
    }

    /** `getProperties`: loads the config file through `caller`. */
    method GetProperties(load: Loader) returns (r: Outcome)
      requires ConfigDelimiter(caller, load)
      modifies this
      ensures caller == old(caller)
      ensures Loading(r, State()) == Load(old(State()), caller, load)
    {
      if ConfigFile !in caller {
        return Err(FileNotFoundException);
      }
      var resource := caller[ConfigFile];
      if resource.readFails {
        return Err(IOException);
      }
      var properties := load(resource.text);
      databaseName := Lookup(properties, "databaseName");
      var names :- TableNames(properties);
      tableNames := Some(names);
      r := if resource.closeFails then Err(IOException) else Done;
    }

    /** `getDatabaseName`: the name, loading the config file only while it is still null. */
    method GetDatabaseName(load: Loader) returns (r: Result<Option<string>>)
      requires ConfigDelimiter(caller, load)
      modifies this
      ensures caller == old(caller)
      ensures Loading(r, State()) == DatabaseNameLoading(old(State()), caller, load)
    {
      if databaseName.None? {
        var loaded := GetProperties(load);
        if loaded.Err? {
          return Err(loaded.fault);
        }
      }
      r := Ok(databaseName);
    }

    /** `getTableNames`: the list, loading the config file only while it is still null. */
    method GetTableNames(load: Loader) returns (r: Result<seq<string>>)
      requires ConfigDelimiter(caller, load)
      modifies this
      ensures caller == old(caller)
      ensures Loading(r, State()) == TableNamesLoading(old(State()), caller, load)
    {
      if tableNames.None? {
        var loaded := GetProperties(load);
        if loaded.Err? {
          return Err(loaded.fault);
        }
      }
      r := Ok(tableNames.value);
    }
  }

  /** The static `instance` slot of `SQLiteDatabaseProperties`. */
  class PropertiesRegistry {
    var instance: SQLiteDatabaseProperties?

    constructor ()
      ensures instance == null
    {
      instance := null;
    }

    /**
     * `getInstance`: the one properties object, created on first use,
     * with its `caller` overwritten by this call's; whatever it has loaded
     * stays loaded.
     */
    method GetInstance(caller: Resources) returns (r: SQLiteDatabaseProperties)
      modifies this, instance
      ensures instance == r && r.caller == caller
      ensures old(instance) != null ==>
        r == old(instance) && r.databaseName == old(instance.databaseName) && r.tableNames == old(instance.tableNames)
      ensures old(instance) == null ==> fresh(r) && r.databaseName == None && r.tableNames == None
    {
      if instance == null {
        instance := new SQLiteDatabaseProperties(caller);
      }
      instance.caller := caller;
      r := instance;
    }
  }

  /**
   * Two callers get the same object, and the second call's caller is the
   * one it loads through from then on.
   */
  method GetInstanceTwice(registry: PropertiesRegistry, first: Resources, second: Resources)
    returns (a: SQLiteDatabaseProperties, b: SQLiteDatabaseProperties)
    modifies registry, registry.instance
    ensures a == b && b.caller == second
  {
    a := registry.GetInstance(first);
    b := registry.GetInstance(second);
  }

  /**
   * Once the table list has loaded, asking again returns the same list
   * without reading the config file, even through a caller whose
   * resources differ.
   */
  method TableNamesAreLoadedOnce(registry: PropertiesRegistry, first: Resources, second: Resources, load: Loader)
    returns (a: Result<seq<string>>, b: Result<seq<string>>)
    requires ConfigDelimiter(first, load) && ConfigDelimiter(second, load)
    modifies registry, registry.instance
    ensures a.Ok? ==> b == a
  {
    var p := registry.GetInstance(first);
    a := p.GetTableNames(load);
    p := registry.GetInstance(second);
    b := p.GetTableNames(load);
  }
}
