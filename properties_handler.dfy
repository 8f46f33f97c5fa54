/**
 * `PropertiesHandler`: a process-wide cache of `.properties` files, loaded
 * from `/config/<name>.properties` on first use and then served, and
 * updated, from memory.
 */
module PropertiesHandlers {
  import opened Wrappers

  /** A loaded `.properties` file: each key's value. */
  type Properties = map<string, string>

  /** How `Properties.load` reads a file's text; its parsing is not modelled. */
  type Loader = string -> Properties

  /** The resource path of a config file. */
  function ConfigPath(filename: string): (r: string)
    ensures |r| == |filename| + 19
    ensures r[..8] == "/config/" && r[8..|r| - 11] == filename && r[|r| - 11..] == ".properties"
  {
    "/config/" + filename + ".properties"
  }

  /**
   * Loading a config file: a missing resource throws
   * `ConfigFileNotFoundException`, and an `IOException` while reading or
   * closing it surfaces as `DBUtilsException`.
   */
  function LoadProperties(filename: string, resources: Resources, load: Loader): (r: Result<Properties>)
    ensures r.Ok? <==>
      ConfigPath(filename) in resources &&
      !resources[ConfigPath(filename)].readFails && !resources[ConfigPath(filename)].closeFails
    ensures r.Ok? ==> r.value == load(resources[ConfigPath(filename)].text)
    ensures r.Err? ==>
      r.fault == (if ConfigPath(filename) in resources then DBUtilsException else ConfigFileNotFoundException)
  {
    var path := ConfigPath(filename);
    if path !in resources then Err(ConfigFileNotFoundException)
    else if resources[path].readFails || resources[path].closeFails then Err(DBUtilsException)
    else Ok(load(resources[path].text))
  }

  /** The static `propertiesMap`: `None` until first used. */
  class PropertiesCache {
    var propertiesMap: Option<map<string, Properties>>

    constructor ()
      ensures propertiesMap == None
    {
      propertiesMap := None;
    }

    /** Whether `filename`'s properties are in the cache. */
    predicate Cached(filename: string)
      reads this
    {
      propertiesMap.Some? && filename in propertiesMap.value
    }

    /**
     * `getDatabaseProperties`: the cached properties of `filename`, or the
     * file loaded and cached. The map is created on first use even when
     * that first load fails, and a failed load caches nothing.
     */
    method GetDatabaseProperties(filename: string, resources: Resources, load: Loader)
      returns (r: Result<Properties>)
      modifies this
      ensures old(Cached(filename)) ==>
        r == Ok(old(propertiesMap).value[filename]) && propertiesMap == old(propertiesMap)
      ensures !old(Cached(filename)) ==>
        var before := if old(propertiesMap).Some? then old(propertiesMap).value else map[];
        r == LoadProperties(filename, resources, load) &&
        propertiesMap == Some(if r.Ok? then before[filename := r.value] else before)
      ensures r.Ok? ==> Cached(filename) && propertiesMap.value[filename] == r.value
    {
      if propertiesMap.None? {
        propertiesMap := Some(map[]);
      } else if filename in propertiesMap.value {
        return Ok(propertiesMap.value[filename]);
      }
      r := LoadProperties(filename, resources, load);
      if r.Ok? {
        propertiesMap := Some(propertiesMap.value[filename := r.value]);
      }
    }

    /** `getProperty`: the key's value, or null when the file has no such key. */
    method GetProperty(filename: string, key: string, resources: Resources, load: Loader)
      returns (r: Result<Option<string>>)
      modifies this
      ensures old(Cached(filename)) ==> propertiesMap == old(propertiesMap)
      ensures r.Ok? <==> Cached(filename)
      ensures r.Ok? ==>
        var properties := propertiesMap.value[filename];
        r.value == if key in properties then Some(properties[key]) else None
      ensures r.Err? ==>
        !old(Cached(filename)) && LoadProperties(filename, resources, load).Err? &&
        r.fault == LoadProperties(filename, resources, load).fault
    {
      var properties :- GetDatabaseProperties(filename, resources, load);
      r := Ok(if key in properties then Some(properties[key]) else None);
    }

    /**
     * `getRequiredProperty`: the key's value; an absent key and an empty
     * value each throw `NullPointerException` with their own message.
     */
    method GetRequiredProperty(filename: string, key: string, resources: Resources, load: Loader)
      returns (r: Result<string>)
      modifies this
      ensures old(Cached(filename)) ==> propertiesMap == old(propertiesMap)
      ensures r.Ok? ==>
        Cached(filename) && key in propertiesMap.value[filename] &&
        r.value == propertiesMap.value[filename][key] && r.value != ""
      ensures Cached(filename) && key !in propertiesMap.value[filename] ==>
        r == Err(NullPointerException("DatabaseUtils missing property key: " + key))
      ensures Cached(filename) && key in propertiesMap.value[filename] && propertiesMap.value[filename][key] == "" ==>
        r == Err(NullPointerException("DatabaseUtils missing property value: " + key))
      ensures !Cached(filename) ==>
        !old(Cached(filename)) && LoadProperties(filename, resources, load).Err? &&
        r.fault == LoadProperties(filename, resources, load).fault
    {
      var properties :- GetDatabaseProperties(filename, resources, load);
      if key !in properties {
        return Err(NullPointerException("DatabaseUtils missing property key: " + key));
      } else if properties[key] == "" {
        return Err(NullPointerException("DatabaseUtils missing property value: " + key));
      }
      r := Ok(properties[key]);
    }

    /**
     * `setProperty`: sets the key on the cached `Properties` object itself,
     * so every later lookup in that file sees the new value.
     */
    method SetProperty(filename: string, key: string, value: string, resources: Resources, load: Loader)
      returns (r: Outcome)
      modifies this
      ensures r.Ok? <==> Cached(filename)
      ensures old(Cached(filename)) ==>
        propertiesMap == Some(old(propertiesMap).value[filename := old(propertiesMap).value[filename][key := value]])
      ensures r.Ok? && !old(Cached(filename)) ==>
        var before := if old(propertiesMap).Some? then old(propertiesMap).value else map[];
        var loaded := LoadProperties(filename, resources, load);
        loaded.Ok? && propertiesMap == Some(before[filename := loaded.value[key := value]])
      ensures r.Err? ==>
        !old(Cached(filename)) && LoadProperties(filename, resources, load).Err? &&
        r.fault == LoadProperties(filename, resources, load).fault
    {
      var properties :- GetDatabaseProperties(filename, resources, load);
      propertiesMap := Some(propertiesMap.value[filename := properties[key := value]]);
      assert !old(Cached(filename)) ==>
        var b := if old(propertiesMap).Some? then old(propertiesMap).value else map[];
        propertiesMap.value == b[filename := properties[key := value]];
      r := Done;
    }
  }

  /**
   * After a successful `setProperty`, `getProperty` for the same file and
   * key gives the new value, whatever the resources say by then.
   */
  method SetThenGet(cache: PropertiesCache, filename: string, key: string, value: string,
                    resources: Resources, later: Resources, load: Loader)
    returns (stored: Outcome, got: Result<Option<string>>)
    modifies cache
    ensures stored.Ok? ==> got == Ok(Some(value))
  {
    stored := cache.SetProperty(filename, key, value, resources, load);
    got := cache.GetProperty(filename, key, later, load);
  }

  /**
   * Once a file has loaded, later lookups are served from the cache: a
   * second `getProperty` gives the same answer even if the resource has
   * since changed or gone.
   */
  method GetPropertyTwice(cache: PropertiesCache, filename: string, key: string,
                          resources: Resources, later: Resources, load: Loader)
    returns (first: Result<Option<string>>, second: Result<Option<string>>)
    modifies cache
    ensures first.Ok? ==> second == first
    ensures first.Err? && !(ConfigPath(filename) in resources) ==> first.fault == ConfigFileNotFoundException
  {
    first := cache.GetProperty(filename, key, resources, load);
    second := cache.GetProperty(filename, key, later, load);
  }
}
