/**
 * `DatabaseConnectionProviderFactory`: one connection provider per database
 * name, created on first request from the database's configured type and
 * remembered from then on.
 */
module ConnectionProviders {
  import opened Wrappers

  /** The database types the library supports. */
  datatype DatabaseType = SQLITE

  /** Opens driver connections to one SQLite database. */
  class SQLiteConnectionProvider {
    const databaseName: string

    constructor (databaseName: string)
      ensures this.databaseName == databaseName
    {
      this.databaseName := databaseName;
    }
  }

  /**
   * How `DatabaseProperties.getDatabaseType` answers for a database name:
   * its type, null, or an exception.
   */
  type TypeLookup = string -> Result<Option<DatabaseType>>

  /** The static `providers` map, `None` until first used. */
  class ProviderRegistry {
    var providers: Option<map<string, SQLiteConnectionProvider?>>

    constructor ()
      ensures providers == None
    {
      providers := None;
    }

    /** Whether a provider, or null, is stored for `databaseName`. */
    predicate Known(databaseName: string)
      reads this
    {
      providers.Some? && databaseName in providers.value
    }

    /**
     * `getConnectionProvider`: the stored provider for a known name, without
     * looking up its type; otherwise the type is looked up, a new
     * `SQLiteConnectionProvider` for the name is made for `SQLITE`, and it
     * is stored. A lookup that throws, or returns null (whose `equals` is
     * then called), leaves the name unknown; the map itself is created on
     * first use either way.
     */
    method GetConnectionProvider(databaseName: string, typeOf: TypeLookup)
      returns (r: Result<SQLiteConnectionProvider?>)
      modifies this
      ensures old(Known(databaseName)) ==>
        r == Ok(old(providers).value[databaseName]) && providers == old(providers)
      ensures !old(Known(databaseName)) ==>
        var before := if old(providers).Some? then old(providers).value else map[];
        var t := typeOf(databaseName);
        (t.Err? ==> r == Err(t.fault) && providers == Some(before)) &&
        (t == Ok(None) ==> r == Err(NullPointerException("")) && providers == Some(before)) &&
        (t == Ok(Some(SQLITE)) ==>
          r.Ok? && r.value != null && fresh(r.value) && r.value.databaseName == databaseName &&
          providers == Some(before[databaseName := r.value]))
      ensures r.Ok? ==> Known(databaseName) && providers.value[databaseName] == r.value
    {
      if providers.None? {
        providers := Some(map[]);
      } else if databaseName in providers.value {
        return Ok(providers.value[databaseName]);
      }
      var provider: SQLiteConnectionProvider? := null;
      var t := typeOf(databaseName);
      if t.Err? {
        return Err(t.fault);
      }
      if t.value.None? {
        return Err(NullPointerException(""));
      }
      match t.value.value
      case SQLITE =>
        provider := new SQLiteConnectionProvider(databaseName);
      providers := Some(providers.value[databaseName := provider]);
      r := Ok(provider);
    }
  }

  /**
   * Once a name has a provider, a second request returns that same
   * provider, even if the configured type would now read differently.
   */
  method GetConnectionProviderTwice(registry: ProviderRegistry, databaseName: string, first: TypeLookup, later: TypeLookup)
    returns (a: Result<SQLiteConnectionProvider?>, b: Result<SQLiteConnectionProvider?>)
    modifies registry
    ensures a.Ok? ==> b == a
    ensures first(databaseName) == Ok(Some(SQLITE)) && !old(registry.Known(databaseName)) ==>
      a.Ok? && a.value != null && a.value.databaseName == databaseName
  {
    a := registry.GetConnectionProvider(databaseName, first);
    b := registry.GetConnectionProvider(databaseName, later);
  }
}
