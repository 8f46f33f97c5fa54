/**
 * `SQLFileExecutor`: runs the statements of a `/sql/<name>.sql` resource,
 * separated by `;`, as one batch; one executor per controller.
 */
module SQLFileExecutors {
  import opened Wrappers
  import opened Jdbc
  import opened BatchQueries
  import opened DatabaseControllers
  import opened JavaText

  /** The resource path of a SQL file. */
  function SqlPath(filename: string): (r: string)
    ensures |r| == |filename| + 9
    ensures r[..5] == "/sql/" && r[5..|r| - 4] == filename && r[|r| - 4..] == ".sql"
  {
    "/sql/" + filename + ".sql"
  }

  /**
   * `getSQLFileContents`: the text of the file, or null when it is missing
   * or empty and not required; a required file that is missing or empty
   * throws `NullPointerException`, and an I/O error on closing it surfaces
   * as `DBUtilsException`. `Scanner` stops quietly at a read error, so a
   * reader sees `text`.
   */
  function SQLFileContents(filename: string, required: bool, resources: Resources): (r: Result<Option<string>>)
    ensures r.Ok? && r.value.Some? <==>
      SqlPath(filename) in resources && resources[SqlPath(filename)].text != [] &&
      !resources[SqlPath(filename)].closeFails
    ensures r.Ok? && r.value.Some? ==> r.value.value == resources[SqlPath(filename)].text
    ensures required ==> r != Ok(None)
    ensures !required ==> r.Ok? || r == Err(DBUtilsException)
    ensures required && SqlPath(filename) !in resources ==>
      r == Err(NullPointerException("resources" + SqlPath(filename) + " is missing"))
    ensures required && SqlPath(filename) in resources && resources[SqlPath(filename)].text == [] ==>
      r == Err(NullPointerException("resources" + SqlPath(filename) + " is empty"))
  {
    var file := SqlPath(filename);
    if file !in resources then
      if required then Err(NullPointerException("resources" + file + " is missing")) else Ok(None)
    else
      var resource := resources[file];
      if resource.text == [] && required then Err(NullPointerException("resources" + file + " is empty"))
      else if resource.closeFails then Err(DBUtilsException)
      else if resource.text == [] then Ok(None)
      else Ok(Some(resource.text))
  }

  /** The statements of a SQL file's text: its `;`-separated fields that are not empty. */
  function Statements(text: string): seq<string>
  {
    NonEmpty(Fields(text, ";"))
  }

  /** The `List<String>` of statements handed to `prepareBatchQuery`: none of them null. */
  function AsQueries(texts: seq<string>): (r: seq<Option<string>>)
    ensures |r| == |texts| && AllPresent(r) && Texts(r) == texts
    ensures forall i :: 0 <= i < |r| ==> r[i] == Some(texts[i])
  {
    seq(|texts|, i requires 0 <= i < |texts| => Some(texts[i]))
  }

  /**
   * What `executeFile(filename, required)` may return with a controller
   * whose connections behave as `driver`: the failure of reading the file;
   * false when there is no file or no statement in it; otherwise whether
   * the batch of its statements touched a row, where the rows counted are
   * those of `BatchRunOrder`, the statements the batch actually executes.
   * A failing batch throws `DBUtilsException` or `NullPointerException`,
   * and one whose driver throws nothing does not fail.
   */
  predicate FileResult(r: Result<bool>, driver: Driver, filename: string, required: bool, resources: Resources)
  {
    match SQLFileContents(filename, required, resources)
    case Err(fault) => r == Err(fault)
    case Ok(None) => r == Ok(false)
    case Ok(Some(text)) =>
      var statements := Statements(text);
      if statements == [] then r == Ok(false)
      else
        && (r.Ok? ==> r.value == (RowTotal(driver, Texts(BatchRunOrder(AsQueries(statements)))) > 0))
        && (r.Err? ==> r.fault in {DBUtilsException, NullPointerException("")})
        && (driver.faults == {} ==> r.Ok?)
  }

  class SQLFileExecutor {
    const controller: SQLDatabaseController

    constructor (controller: SQLDatabaseController)
      ensures this.controller == controller
    {
      this.controller := controller;
    }

    /**
     * The non-empty fragments of `queries`, in order: the loop that fills
     * `validQueries`.
     */
    method ValidQueries(queries: seq<string>) returns (valid: seq<string>)
      ensures valid == NonEmpty(queries)
      ensures forall q :: q in valid <==> q in queries && q != ""
    {
      valid := [];
      var i := 0;
      while i < |queries|
        invariant 0 <= i <= |queries|
        invariant valid == NonEmpty(queries[..i])
      {
        NonEmptyAppend(queries[..i], [queries[i]]);
        assert queries[..i + 1] == queries[..i] + [queries[i]];
        if queries[i] != "" {
          valid := valid + [queries[i]];
        }
        i := i + 1;
      }
      assert queries[..i] == queries;
    }

    /**
     * `executeFile(filename, required)`: nothing to run gives false without
     * preparing a batch; otherwise the non-empty statements, in file order,
     * go to one batch, and the result says whether its update touched any
     * row.
     */
    method ExecuteFile(filename: string, required: bool, resources: Resources) returns (r: Result<bool>)
      ensures FileResult(r, controller.driver, filename, required, resources)
    {
      var file := SQLFileContents(filename, required, resources);
      if file.Err? {
        return Err(file.fault);
      }
      if file.value.None? {
        return Ok(false);
      }
      var queries := Split(file.value.value, ";");
      var valid := ValidQueries(queries);
      SplitNonEmpty(file.value.value, ";");
      if valid == [] {
        return Ok(false);
      }
      var list := AsQueries(valid);
      assert Runnable(list) by {
        forall i | 0 <= i < |list|
          ensures list[i].Some? && list[i].value != []
        {
          assert valid[i] in valid;
        }
      }
      var prepared := controller.PrepareBatchQueryList(list);
      if prepared.Err? {
        return Err(prepared.fault);
      }
      var count := Finish(prepared.value, controller.driver, Texts(ChainedQueries(list)));
      if count.Err? {
        return Err(count.fault);
      }
      TextsAppend(ChainedQueries(list), CurrentQuery(list).value);
      r := Ok(count.value > 0);
    }

    /** `executeFile(name)`: a file that may be absent; a missing or empty one gives false. */
    method ExecuteOptionalFile(filename: string, resources: Resources) returns (r: Result<bool>)
      ensures FileResult(r, controller.driver, filename, false, resources)
      ensures SqlPath(filename) !in resources ==> r == Ok(false)
      ensures r.Err? ==> r.fault in {DBUtilsException, NullPointerException("")}
    {
      r := ExecuteFile(filename, false, resources);
    }

    /** `executeRequiredFile(name)`: a missing or empty file throws `NullPointerException`. */
    method ExecuteRequiredFile(filename: string, resources: Resources) returns (r: Result<bool>)
      ensures FileResult(r, controller.driver, filename, true, resources)
      ensures SqlPath(filename) !in resources ==>
        r == Err(NullPointerException("resources" + SqlPath(filename) + " is missing"))
      ensures SqlPath(filename) in resources && resources[SqlPath(filename)].text == [] ==>
        r == Err(NullPointerException("resources" + SqlPath(filename) + " is empty"))
    {
      r := ExecuteFile(filename, true, resources);
    }
  }

  /** The static executor map of `getInstance`, `None` until first used. */
  class ExecutorRegistry {
    var executors: Option<map<SQLDatabaseController, SQLFileExecutor>>

    /** Every executor is stored under its own controller. */
    ghost predicate Valid()
      reads this, if executors.Some? then executors.value.Values else {}
    {
      executors.Some? ==> forall c :: c in executors.value ==> executors.value[c].controller == c
    }

    constructor ()
      ensures executors == None && Valid()
    {
      executors := None;
    }

    /** `getInstance`: the stored executor for the controller, or a new one, stored. */
    method GetInstance(controller: SQLDatabaseController) returns (r: SQLFileExecutor)
      requires Valid()
      modifies this
      ensures Valid() && r.controller == controller
      ensures executors.Some? && controller in executors.value && executors.value[controller] == r
      ensures old(executors).Some? && controller in old(executors).value ==>
        r == old(executors).value[controller] && executors == old(executors)
      ensures !(old(executors).Some? && controller in old(executors).value) ==>
        fresh(r) &&
        executors.value == (if old(executors).Some? then old(executors).value else map[])[controller := r]
    {
      if executors.None? {
        executors := Some(map[]);
      } else if controller in executors.value {
        return executors.value[controller];
      }
      r := new SQLFileExecutor(controller);
      executors := Some(executors.value[controller := r]);
    }
  }

  /** Asking twice for the same controller's executor gives the same executor. */
  method GetInstanceTwice(registry: ExecutorRegistry, controller: SQLDatabaseController)
    returns (first: SQLFileExecutor, second: SQLFileExecutor)
    requires registry.Valid()
    modifies registry
    ensures first == second && first.controller == controller
  {
    first := registry.GetInstance(controller);
    second := registry.GetInstance(controller);
  }
}
