/**
 * `Query`: binding positional parameters on the handle's prepared
 * statement, the i-th parameter at 1-based index i.
 *
 * `BatchQuery` and `SQLDatabaseController` are written against a `Query`
 * that also holds the SQL text and a map of named parameters
 * (`Query(connection, sql)`, `setSql`, `setParameter`,
 * `prepareStatementWithParameters`); those members are given here with the
 * simplest behaviour their callers rely on.
 */
module Queries {
  import opened Wrappers
  import opened Jdbc
  import opened Connection
  import ParameterParser

  /** `bound` with `parameters[k]` at index `k + 1`, for every k. */
  function BindAll(bound: map<int, Value>, parameters: seq<Value>): map<int, Value>
    decreases |parameters|
  {
    if parameters == [] then bound
    else BindAll(bound, parameters[..|parameters| - 1])[|parameters| := parameters[|parameters| - 1]]
  }

  /** Binding places each parameter at its 1-based index and keeps every other binding. */
  lemma {:induction false} BindAllPlacesEachParameter(bound: map<int, Value>, parameters: seq<Value>)
    ensures forall k :: 1 <= k <= |parameters| ==>
      k in BindAll(bound, parameters) && BindAll(bound, parameters)[k] == parameters[k - 1]
    ensures forall k :: k in bound && !(1 <= k <= |parameters|) ==>
      k in BindAll(bound, parameters) && BindAll(bound, parameters)[k] == bound[k]
    ensures forall k :: k in BindAll(bound, parameters) ==> k in bound || 1 <= k <= |parameters|
    decreases |parameters|
  {
    if parameters != [] {
      var n := |parameters|;
      var front := parameters[..n - 1];
      BindAllPlacesEachParameter(bound, front);
      var m0 := BindAll(bound, front);
      var m := BindAll(bound, parameters);
      assert m == m0[n := parameters[n - 1]];
      forall k | 1 <= k < n
        ensures k in m && m[k] == parameters[k - 1]
      {
        assert m0[k] == front[k - 1];
      }
    }
  }

  /** The driver calls that bind `parameters` in order, from index 1. */
  function SetCalls(sql: string, parameters: seq<Value>): (r: seq<Call>)
    ensures |r| == |parameters|
    ensures forall k :: 0 <= k < |parameters| ==> r[k] == Call.SetObject(sql, k + 1, parameters[k])
  {
    seq(|parameters|, k requires 0 <= k < |parameters| => Call.SetObject(sql, k + 1, parameters[k]))
  }

  /** How many leading parameters, from the `i`-th on, the driver accepts on statement `s`. */
  function AcceptedFrom(s: Stmt, parameters: seq<Value>, faults: set<Call>, i: nat): (n: nat)
    requires i <= |parameters|
    ensures i <= n <= |parameters|
    ensures forall k :: i <= k < n ==> !s.closed && Call.SetObject(s.sql, k + 1, parameters[k]) !in faults
    ensures n < |parameters| ==> s.closed || Call.SetObject(s.sql, n + 1, parameters[n]) in faults
    decreases |parameters| - i
  {
    if i == |parameters| || s.closed || Call.SetObject(s.sql, i + 1, parameters[i]) in faults then i
    else AcceptedFrom(s, parameters, faults, i + 1)
  }

  /** The number of leading parameters the driver accepts on statement `s`. */
  function Accepted(s: Stmt, parameters: seq<Value>, faults: set<Call>): (n: nat)
    ensures n <= |parameters|
    ensures n == |parameters| <==>
      (parameters == [] || !s.closed) &&
      forall k :: 0 <= k < |parameters| ==> Call.SetObject(s.sql, k + 1, parameters[k]) !in faults
  {
    AcceptedFrom(s, parameters, faults, 0)
  }

  /**
   * The value bound for each key in `order`, looked up in the parameter
   * map; every key looked up is one of the map's keys.
   */
  function ParameterValues(order: seq<string>, parameters: map<string, Value>): (r: seq<Value>)
    requires forall i :: 0 <= i < |order| ==> order[i] in parameters
    ensures |r| == |order|
    ensures forall i :: 0 <= i < |order| ==> r[i] == parameters[order[i]]
  {
    seq(|order|, i requires 0 <= i < |order| => parameters[order[i]])
  }

  /**
   * The keys of a parameter map as the query keeps them: literal, each
   * listed once, and exactly the map's key set. The list order stands for
   * one of the iteration orders a `HashMap` may have.
   */
  predicate KeysOfMap(keys: seq<string>, parameters: map<string, Value>)
  {
    (forall k :: k in keys ==> ParameterParser.LiteralKey(k)) &&
    (forall i, j :: 0 <= i < j < |keys| ==> keys[i] != keys[j]) &&
    (forall k :: k in keys ==> k in parameters) &&
    (forall k :: k in parameters ==> k in keys)
  }

  /** The values `prepareStatementWithParameters` binds: each key's value, in the order the keys occur in `sql`. */
  function OrderedValues(sql: string, keys: seq<string>, parameters: map<string, Value>): seq<Value>
    requires KeysOfMap(keys, parameters)
  {
    var order := ParameterParser.KeysOf(ParameterParser.Matches(sql, keys, 0));
    ParameterParser.ReportedKeysComeFromTheMap(sql, keys);
    assert forall i :: 0 <= i < |order| ==> order[i] in order;
    ParameterValues(order, parameters)
  }

  /** The calls `setParameters(values)` makes on statement `s`: up to and including the first one refused. */
  function BindCalls(s: Stmt, values: seq<Value>, faults: set<Call>): seq<Call>
  {
    var n := Accepted(s, values, faults);
    SetCalls(s.sql, values[..if n < |values| then n + 1 else n])
  }

  /** The statement text `prepareStatementWithParameters` prepares: the template with every key replaced by `?`. */
  function Template(sql: Option<string>, keys: seq<string>): (r: Option<string>)
    requires forall k :: k in keys ==> ParameterParser.LiteralKey(k)
    ensures r.Some? <==> sql.Some?
  {
    if sql.None? then None else Some(ParameterParser.RemoveAll(sql.value, keys))
  }

  /** The values bound for a template that may be null: none for `null`. */
  function Values(sql: Option<string>, keys: seq<string>, parameters: map<string, Value>): seq<Value>
    requires KeysOfMap(keys, parameters)
  {
    if sql.None? then [] else OrderedValues(sql.value, keys, parameters)
  }

  /** A query without parameters prepares its SQL as it stands and binds nothing. */
  lemma NoKeysNoValues(sql: Option<string>, parameters: map<string, Value>)
    requires KeysOfMap([], parameters)
    ensures Template(sql, []) == sql && Values(sql, [], parameters) == []
  {
    if sql.Some? {
      ParameterParser.ReportedKeysComeFromTheMap(sql.value, []);
    }
  }

  /** Whether `prepareStatementWithParameters` returns, given its text and values. */
  predicate PreparedWithParameters(driver: Driver, connection: Option<Conn>, text: Option<string>, values: seq<Value>)
  {
    text.Some? && PrepareReturns(driver, connection, text.value) &&
    Accepted(Stmt(text.value, false, map[]), values, driver.faults) == |values|
  }

  /**
   * The calls `prepareStatementWithParameters` makes: none without SQL;
   * otherwise the prepare of the `?` text and, when that returns, the
   * bindings up to the first refused one.
   */
  function PrepareWithParametersCalls(driver: Driver, connection: Option<Conn>, text: Option<string>, values: seq<Value>): (r: seq<Call>)
    ensures forall i :: 0 <= i < |r| ==> r[i].OpenConnection? || r[i].PrepareStatement? || r[i].SetObject?
  {
    if text.None? then []
    else
      PrepareCalls(driver, connection, text.value) +
      (if PrepareReturns(driver, connection, text.value)
       then BindCalls(Stmt(text.value, false, map[]), values, driver.faults)
       else [])
  }

  /** The connection after `prepareStatementWithParameters`: opened unless nothing was prepared. */
  function ConnectionAfterPrepare(driver: Driver, connection: Option<Conn>, text: Option<string>): Option<Conn>
  {
    if text.None? || text.value == [] then connection else Opened(driver, connection)
  }

  /** The statement after `prepareStatementWithParameters`: the new one, with the values the driver accepted bound. */
  function StatementAfterPrepare(driver: Driver, connection: Option<Conn>, statement: Option<Stmt>,
                                 text: Option<string>, values: seq<Value>): Option<Stmt>
  {
    if text.None? || !PrepareReturns(driver, connection, text.value) then statement
    else
      var s := Stmt(text.value, false, map[]);
      Some(s.(bound := BindAll(map[], values[..Accepted(s, values, driver.faults)])))
  }

  /** A prepare that throws: its calls are all, the statement stays, and nothing is bound. */
  lemma PrepareStops(driver: Driver, connection: Option<Conn>, statement: Option<Stmt>, text: string, values: seq<Value>)
    requires !PrepareReturns(driver, connection, text)
    ensures PrepareWithParametersCalls(driver, connection, Some(text), values) == PrepareCalls(driver, connection, text)
    ensures StatementAfterPrepare(driver, connection, statement, Some(text), values) == statement
    ensures !PreparedWithParameters(driver, connection, Some(text), values)
  {
    assert PrepareCalls(driver, connection, text) + [] == PrepareCalls(driver, connection, text);
  }

  /** A prepare that returns: the bindings follow it, on the new statement. */
  lemma PrepareBinds(driver: Driver, connection: Option<Conn>, statement: Option<Stmt>, text: string, values: seq<Value>)
    requires PrepareReturns(driver, connection, text)
    ensures var s := Stmt(text, false, map[]);
      && PrepareWithParametersCalls(driver, connection, Some(text), values) ==
           PrepareCalls(driver, connection, text) + BindCalls(s, values, driver.faults)
      && StatementAfterPrepare(driver, connection, statement, Some(text), values) ==
           Some(s.(bound := BindAll(map[], values[..Accepted(s, values, driver.faults)])))
      && (PreparedWithParameters(driver, connection, Some(text), values) <==> Accepted(s, values, driver.faults) == |values|)
  {
  }

  /** Regrouping a log appended in two steps. */
  lemma AppendTwo(log: seq<Call>, a: seq<Call>, b: seq<Call>)
    ensures log + a + b == log + (a + b)
  {
  }

  /**
   * When `prepareStatementWithParameters` returns, the `i`-th key found in
   * the template has its value bound at index `i + 1`, and nothing else is
   * bound.
   */
  lemma BindsEachOccurrence(driver: Driver, connection: Option<Conn>, statement: Option<Stmt>, sql: string,
                            keys: seq<string>, parameters: map<string, Value>)
    requires KeysOfMap(keys, parameters)
    requires PreparedWithParameters(driver, connection, Template(Some(sql), keys), OrderedValues(sql, keys, parameters))
    ensures var after := StatementAfterPrepare(driver, connection, statement, Template(Some(sql), keys), OrderedValues(sql, keys, parameters));
      var order := ParameterParser.KeysOf(ParameterParser.Matches(sql, keys, 0));
      after.Some? && after.value.sql == ParameterParser.RemoveAll(sql, keys) && !after.value.closed &&
      (forall i :: i in after.value.bound <==> 1 <= i <= |order|) &&
      (forall i :: 0 <= i < |order| ==> order[i] in parameters && after.value.bound[i + 1] == parameters[order[i]])
  {
    var values := OrderedValues(sql, keys, parameters);
    var text := ParameterParser.RemoveAll(sql, keys);
    assert values[..Accepted(Stmt(text, false, map[]), values, driver.faults)] == values;
    BindAllPlacesEachParameter(map[], values);
    ParameterParser.ReportedKeysComeFromTheMap(sql, keys);
  }

  class Query {
    const connection: DBUtilsConnection
    /** The SQL template, with named keys; `None` is Java's `null`. */
    var sql: Option<string>
    /** The keys of the parameter map, in iteration order. */
    var keys: seq<string>
    var parameters: map<string, Value>

    /** The handle is well formed, and `keys` lists the parameter map's keys. */
    ghost predicate Valid()
      reads this, connection
    {
      connection.Valid() && KeysOfMap(keys, parameters)
    }

    constructor (connection: DBUtilsConnection)
      ensures this.connection == connection && sql == None && keys == [] && parameters == map[]
      ensures connection.Valid() ==> Valid()
    {
      this.connection := connection;
      sql := None;
      keys := [];
      parameters := map[];
    }

    /** `Query(connection, sql)`: holds the SQL; nothing is prepared yet. */
    constructor WithSql(connection: DBUtilsConnection, sql: Option<string>)
      ensures this.connection == connection && this.sql == sql && keys == [] && parameters == map[]
      ensures connection.Valid() ==> Valid()
    {
      this.connection := connection;
      this.sql := sql;
      keys := [];
      parameters := map[];
    }

    /** `setSql`: replaces the SQL template and keeps the parameters. */
    method SetSql(sql: Option<string>)
      modifies this
      ensures this.sql == sql && keys == old(keys) && parameters == old(parameters)
    {
      this.sql := sql;
    }

    /** `setParameter`: maps `key` to `value`, replacing an earlier value for it. */
    method SetParameter(key: string, value: Value) returns (r: Query)
      requires Valid() && ParameterParser.LiteralKey(key)
      modifies this
      ensures Valid() && r == this && sql == old(sql)
      ensures parameters == old(parameters)[key := value]
      ensures keys == if key in old(keys) then old(keys) else old(keys) + [key]
    {
      if key !in keys {
        keys := keys + [key];
      }
      parameters := parameters[key := value];
      r := this;
    }

    /**
     * `prepareStatementWithParameters`: prepares the SQL with every key
     * replaced by `?`, then binds the keys' values in the order the keys
     * occur in the SQL.
     */
    method PrepareStatementWithParameters() returns (r: Outcome)
      requires Valid()
      modifies connection
      ensures Valid()
      ensures var text, values := Template(sql, keys), Values(sql, keys, parameters);
        && connection.calls == old(connection.calls) + PrepareWithParametersCalls(connection.driver, old(connection.connection), text, values)
        && connection.connection == ConnectionAfterPrepare(connection.driver, old(connection.connection), text)
        && connection.statement == StatementAfterPrepare(connection.driver, old(connection.connection), old(connection.statement), text, values)
        && (r.Ok? <==> PreparedWithParameters(connection.driver, old(connection.connection), text, values))
      ensures r.Err? ==> r.fault == DBUtilsException
    {
      if sql.None? {
        var p := connection.PrepareStatement(None);
        return Err(p.fault);
      }
      r := PrepareTemplate(sql.value);
    }

    /** `prepareStatementWithParameters` on a template that is not null. */
    method PrepareTemplate(template: string) returns (r: Outcome)
      requires Valid() && sql == Some(template)
      modifies connection
      ensures Valid()
      ensures var text, values := Template(sql, keys), Values(sql, keys, parameters);
        && connection.calls == old(connection.calls) + PrepareWithParametersCalls(connection.driver, old(connection.connection), text, values)
        && connection.connection == ConnectionAfterPrepare(connection.driver, old(connection.connection), text)
        && connection.statement == StatementAfterPrepare(connection.driver, old(connection.connection), old(connection.statement), text, values)
        && (r.Ok? <==> PreparedWithParameters(connection.driver, old(connection.connection), text, values))
      ensures r.Err? ==> r.fault == DBUtilsException
    {
      var text := ParameterParser.RemoveParameterKeys(template, keys);
      ghost var values := OrderedValues(template, keys, parameters);
      assert Template(sql, keys) == Some(text) && Values(sql, keys, parameters) == values;
      ghost var driver, c0, s0 := connection.driver, connection.connection, connection.statement;
      var p := connection.PrepareStatement(Some(text));
      if p.Err? {
        PrepareStops(driver, c0, s0, text, values);
        return Err(p.fault);
      }
      ghost var prepared := connection.calls;
      r := BindTemplate(template, text);
      PrepareBinds(driver, c0, s0, text, values);
      AppendTwo(old(connection.calls), PrepareCalls(driver, c0, text), BindCalls(Stmt(text, false, map[]), values, driver.faults));
    }

    /** The rest of `prepareStatementWithParameters` once `text` is prepared: binds the keys' values in the order they occur. */
    method BindTemplate(template: string, text: string) returns (r: Outcome)
      requires Valid() && sql == Some(template) && text == ParameterParser.RemoveAll(template, keys)
      requires connection.statement == Some(Stmt(text, false, map[]))
      modifies connection
      ensures Valid() && connection.connection == old(connection.connection)
      ensures var s := Stmt(text, false, map[]);
        var values := OrderedValues(template, keys, parameters);
        var n := Accepted(s, values, connection.driver.faults);
        connection.calls == old(connection.calls) + BindCalls(s, values, connection.driver.faults) &&
        connection.statement == Some(s.(bound := BindAll(map[], values[..n]))) &&
        (r.Ok? <==> n == |values|) &&
        (r.Err? ==> r.fault == DBUtilsException)
    {
      var order := ParameterParser.GetParameterKeys(template, keys);
      var values := ParameterValues(order, parameters);
      assert values == OrderedValues(template, keys, parameters);
      r := SetParameters(values);
    }

    /**
     * Binds each parameter at its 1-based position, in list order; the
     * first driver fault stops the loop and surfaces as `DBUtilsException`.
     * With no parameters nothing is bound and nothing is called.
     */
    method SetParameters(parameters: seq<Value>) returns (r: Outcome)
      requires connection.Valid()
      modifies connection
      ensures connection.Valid() && connection.connection == old(connection.connection)
      ensures parameters == [] ==>
        r.Ok? && connection.statement == old(connection.statement) && connection.calls == old(connection.calls)
      ensures old(connection.statement).None? && parameters != [] ==>
        r == Err(NullPointerException("")) &&
        connection.statement == old(connection.statement) && connection.calls == old(connection.calls)
      ensures old(connection.statement).Some? ==>
        var s := old(connection.statement).value;
        var n := Accepted(s, parameters, connection.driver.faults);
        (r.Ok? <==> n == |parameters|) &&
        (r.Err? ==> r.fault == DBUtilsException) &&
        connection.statement == Some(s.(bound := BindAll(s.bound, parameters[..n]))) &&
        connection.calls == old(connection.calls) + BindCalls(s, parameters, connection.driver.faults)
    {
      var i := 0;
      while i < |parameters|
        invariant 0 <= i <= |parameters|
        invariant connection.Valid() && connection.connection == old(connection.connection)
        invariant old(connection.statement).None? ==>
          i == 0 && connection.statement == old(connection.statement) && connection.calls == old(connection.calls)
        invariant old(connection.statement).Some? ==>
          var s := old(connection.statement).value;
          i <= Accepted(s, parameters, connection.driver.faults) &&
          connection.statement == Some(s.(bound := BindAll(s.bound, parameters[..i]))) &&
          connection.calls == old(connection.calls) + SetCalls(s.sql, parameters[..i])
      {
        ghost var before := connection.calls;
        var a := connection.StatementSetObject(i + 1, parameters[i]);
        if a.NullPointer? {
          return Err(NullPointerException(""));
        }
        var s := old(connection.statement).value;
        assert parameters[..i + 1][..i] == parameters[..i];
        assert SetCalls(s.sql, parameters[..i + 1]) == SetCalls(s.sql, parameters[..i]) + [Call.SetObject(s.sql, i + 1, parameters[i])];
        if a.SQLException? {
          return Err(DBUtilsException);
        }
        i := i + 1;
      }
      assert parameters[..i] == parameters;
      r := Done;
    }

    /** `addParameters(T...)`: binds the parameters and returns this query. */
    method AddParameters(parameters: seq<Value>) returns (r: Result<Query>)
      requires connection.Valid()
      modifies connection
      ensures connection.Valid() && connection.connection == old(connection.connection)
      ensures r.Ok? ==> r.value == this
      ensures old(connection.statement).None? ==> (r.Ok? <==> parameters == [])
      ensures old(connection.statement).Some? ==>
        var s := old(connection.statement).value;
        (r.Ok? <==> Accepted(s, parameters, connection.driver.faults) == |parameters|) &&
        (r.Ok? ==> connection.statement == Some(s.(bound := BindAll(s.bound, parameters))) &&
                   connection.calls == old(connection.calls) + SetCalls(s.sql, parameters))
      ensures parameters == [] ==>
        r == Ok(this) && connection.statement == old(connection.statement) && connection.calls == old(connection.calls)
      ensures old(connection.statement).None? && parameters != [] ==>
        r == Err(NullPointerException("")) &&
        connection.statement == old(connection.statement) && connection.calls == old(connection.calls)
      ensures old(connection.statement).Some? ==>
        var s := old(connection.statement).value;
        var n := Accepted(s, parameters, connection.driver.faults);
        connection.statement == Some(s.(bound := BindAll(s.bound, parameters[..n]))) &&
        connection.calls == old(connection.calls) + BindCalls(s, parameters, connection.driver.faults) &&
        (r.Err? ==> r.fault == DBUtilsException)
      ensures r.Err? ==> r.fault == DBUtilsException || r.fault == NullPointerException("")
    {
      var o := SetParameters(parameters);
      assert parameters[..|parameters|] == parameters;
      if o.Err? {
        return Err(o.fault);
      }
      r := Ok(this);
    }

    /** `addParameters(List<T>)`: binds the list's elements, in order, exactly as the varargs form. */
    method AddParameterList(parameters: seq<Value>) returns (r: Result<Query>)
      requires connection.Valid()
      modifies connection
      ensures connection.Valid() && connection.connection == old(connection.connection)
      ensures r.Ok? ==> r.value == this
      ensures old(connection.statement).None? ==> (r.Ok? <==> parameters == [])
      ensures old(connection.statement).Some? ==>
        var s := old(connection.statement).value;
        (r.Ok? <==> Accepted(s, parameters, connection.driver.faults) == |parameters|) &&
        (r.Ok? ==> connection.statement == Some(s.(bound := BindAll(s.bound, parameters))) &&
                   connection.calls == old(connection.calls) + SetCalls(s.sql, parameters))
      ensures parameters == [] ==>
        r == Ok(this) && connection.statement == old(connection.statement) && connection.calls == old(connection.calls)
      ensures old(connection.statement).None? && parameters != [] ==>
        r == Err(NullPointerException("")) &&
        connection.statement == old(connection.statement) && connection.calls == old(connection.calls)
      ensures old(connection.statement).Some? ==>
        var s := old(connection.statement).value;
        var n := Accepted(s, parameters, connection.driver.faults);
        connection.statement == Some(s.(bound := BindAll(s.bound, parameters[..n]))) &&
        connection.calls == old(connection.calls) + BindCalls(s, parameters, connection.driver.faults) &&
        (r.Err? ==> r.fault == DBUtilsException)
      ensures r.Err? ==> r.fault == DBUtilsException || r.fault == NullPointerException("")
    {
      r := AddParameters(parameters);
    }
  }
}
