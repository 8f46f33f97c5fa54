/**
 * `BatchQuery`: a chain of statements on one connection with auto-commit
 * off, a running total of affected rows, rollback on a fault, and commit
 * then close in `finally`.
 *
 * Every contract here is stated on the handle's call log: which driver
 * calls a step makes is a function of the state it starts from and of the
 * driver's faults.
 */
module BatchQueries {
  import opened Wrappers
  import opened Jdbc
  import opened Connection
  import opened Queries
  import ParameterParser

  // ---------------------------------------------------------------------
  // Views of a call log
  // ---------------------------------------------------------------------

  /** The kinds of call the transaction guarantees are about. */
  datatype Kind = Transaction | Closing | Other

  function KindOf(c: Call): Kind
  {
    if c.Commit? || c.Rollback? then Transaction
    else if c.CloseStatement? || c.CloseConnection? then Closing
    else Other
  }

  /** The calls of kind `k` in `calls`, in order. */
  function Only(calls: seq<Call>, k: Kind): (r: seq<Call>)
    ensures |r| <= |calls|
    decreases |calls|
  {
    if calls == [] then []
    else Only(calls[..|calls| - 1], k) + (if KindOf(calls[|calls| - 1]) == k then [calls[|calls| - 1]] else [])
  }

  lemma {:induction false} OnlyAppend(a: seq<Call>, b: seq<Call>, k: Kind)
    ensures Only(a + b, k) == Only(a, k) + Only(b, k)
    decreases |b|
  {
    if b == [] {
      assert a + b == a;
    } else {
      assert (a + b)[..|a + b| - 1] == a + b[..|b| - 1];
      OnlyAppend(a, b[..|b| - 1], k);
    }
  }

  lemma {:induction false} OnlyNone(calls: seq<Call>, k: Kind)
    requires forall i :: 0 <= i < |calls| ==> KindOf(calls[i]) != k
    ensures Only(calls, k) == []
    decreases |calls|
  {
    if calls != [] {
      OnlyNone(calls[..|calls| - 1], k);
    }
  }

  lemma {:induction false} OnlyAll(calls: seq<Call>, k: Kind)
    requires forall i :: 0 <= i < |calls| ==> KindOf(calls[i]) == k
    ensures Only(calls, k) == calls
    decreases |calls|
  {
    if calls != [] {
      OnlyAll(calls[..|calls| - 1], k);
    }
  }

  /** The SQL of the updates executed in `calls`, in order. */
  function Updates(calls: seq<Call>): seq<string>
    decreases |calls|
  {
    if calls == [] then []
    else
      var last := calls[|calls| - 1];
      Updates(calls[..|calls| - 1]) + (if last.ExecuteUpdate? then [last.sql] else [])
  }

  lemma {:induction false} UpdatesAppend(a: seq<Call>, b: seq<Call>)
    ensures Updates(a + b) == Updates(a) + Updates(b)
    decreases |b|
  {
    if b == [] {
      assert a + b == a;
    } else {
      assert (a + b)[..|a + b| - 1] == a + b[..|b| - 1];
      UpdatesAppend(a, b[..|b| - 1]);
    }
  }

  lemma {:induction false} UpdatesNone(calls: seq<Call>)
    requires forall i :: 0 <= i < |calls| ==> !calls[i].ExecuteUpdate?
    ensures Updates(calls) == []
    decreases |calls|
  {
    if calls != [] {
      UpdatesNone(calls[..|calls| - 1]);
    }
  }

  /** The total row count of the updates `sqls`. */
  function RowTotal(driver: Driver, sqls: seq<string>): nat
    decreases |sqls|
  {
    if sqls == [] then 0 else RowTotal(driver, sqls[..|sqls| - 1]) + driver.rowCount(sqls[|sqls| - 1])
  }

  // ---------------------------------------------------------------------
  // The calls of each block, from the state it starts in
  // ---------------------------------------------------------------------

  /** Whether the try block's `prepareStatementWithParameters(); executeUpdate()` returns. */
  predicate AttemptReturns(driver: Driver, connection: Option<Conn>, text: Option<string>, values: seq<Value>)
  {
    PreparedWithParameters(driver, connection, text, values) && Call.ExecuteUpdate(text.value) !in driver.faults
  }

  /** The calls of that prepare-and-execute: the update runs only once the statement is prepared and bound. */
  function AttemptCalls(driver: Driver, connection: Option<Conn>, text: Option<string>, values: seq<Value>): seq<Call>
  {
    PrepareWithParametersCalls(driver, connection, text, values) +
    (if PreparedWithParameters(driver, connection, text, values) then [Call.ExecuteUpdate(text.value)] else [])
  }

  /** What a catch block that rolls back throws: the rollback's own exception, else `DBUtilsException`. */
  function RollbackFault(driver: Driver, connection: Option<Conn>): Fault
  {
    var rollback := TransactionResult(driver, connection, Call.Rollback);
    if rollback.Err? then rollback.fault else DBUtilsException
  }

  /** The catch block of `prepareBatchQuery`: roll back, then close if the rollback returned. */
  function RecoveryCalls(driver: Driver, connection: Option<Conn>, statement: Option<Stmt>): seq<Call>
  {
    TransactionCalls(connection, Call.Rollback) +
    (if TransactionResult(driver, connection, Call.Rollback).Ok? then CloseCalls(statement, connection, driver.faults) else [])
  }

  /** The finally block of `executeUpdate`: commit, then close if the commit returned. */
  function FinishCalls(driver: Driver, connection: Option<Conn>, statement: Option<Stmt>): seq<Call>
  {
    TransactionCalls(connection, Call.Commit) +
    (if TransactionResult(driver, connection, Call.Commit).Ok? then CloseCalls(statement, connection, driver.faults) else [])
  }

  /** How the finally block ends: the commit's exception, else the close's, else normally. */
  function FinishResult(driver: Driver, connection: Option<Conn>, statement: Option<Stmt>): Outcome
  {
    var commit := TransactionResult(driver, connection, Call.Commit);
    if commit.Err? then commit
    else if !CloseReturns(statement, connection, driver.faults) then Err(DBUtilsException)
    else Done
  }

  /**
   * Whether a chaining step returns: the current statement `text` runs with
   * `values`, then `next` is prepared on the same connection.
   */
  predicate BatchReturns(driver: Driver, connection: Option<Conn>, text: Option<string>, values: seq<Value>,
                         next: Option<string>)
  {
    AttemptReturns(driver, connection, text, values) && next.Some? &&
    PrepareReturns(driver, ConnectionAfterPrepare(driver, connection, text), next.value)
  }

  /** The prepare of `next` in a chaining step, made once the prepare-and-execute of `text` returned. */
  function RepreparedCalls(driver: Driver, connection: Option<Conn>, text: Option<string>, values: seq<Value>,
                           next: Option<string>): (r: seq<Call>)
    ensures Quiet(r)
  {
    if AttemptReturns(driver, connection, text, values) && next.Some? then
      PrepareCalls(driver, ConnectionAfterPrepare(driver, connection, text), next.value)
    else []
  }

  /** The catch block of a chaining step: a rollback and the closes, made only when the step failed. */
  function CatchCalls(driver: Driver, connection: Option<Conn>, statement: Option<Stmt>, text: Option<string>,
                      values: seq<Value>, next: Option<string>): seq<Call>
  {
    if BatchReturns(driver, connection, text, values, next) then []
    else RecoveryCalls(driver, ConnectionAfterPrepare(driver, connection, text),
                       StatementAfterPrepare(driver, connection, statement, text, values))
  }

  /**
   * The calls of a chaining step: the prepare-and-execute of `text`, the
   * prepare of `next` once that returned, and the catch block's rollback and
   * close when either failed.
   */
  function BatchCalls(driver: Driver, connection: Option<Conn>, statement: Option<Stmt>, text: Option<string>,
                      values: seq<Value>, next: Option<string>): seq<Call>
  {
    AttemptCalls(driver, connection, text, values) + RepreparedCalls(driver, connection, text, values, next) +
    CatchCalls(driver, connection, statement, text, values, next)
  }

  /** The catch block of `executeUpdate`: a rollback when the prepare-and-execute failed. */
  function UndoCalls(driver: Driver, connection: Option<Conn>, text: Option<string>, values: seq<Value>): seq<Call>
  {
    if AttemptReturns(driver, connection, text, values) then []
    else TransactionCalls(ConnectionAfterPrepare(driver, connection, text), Call.Rollback)
  }

  /** The calls of `executeUpdate`: prepare and execute, a rollback when that failed, then the finally block. */
  function UpdateCalls(driver: Driver, connection: Option<Conn>, statement: Option<Stmt>, text: Option<string>,
                       values: seq<Value>): seq<Call>
  {
    AttemptCalls(driver, connection, text, values) + UndoCalls(driver, connection, text, values) +
    FinishCalls(driver, ConnectionAfterPrepare(driver, connection, text),
                StatementAfterPrepare(driver, connection, statement, text, values))
  }

  /**
   * What `executeUpdate` returns: an exception from the finally block wins;
   * otherwise the total plus the statement's row count, or the catch
   * block's exception.
   */
  function UpdateResult(driver: Driver, connection: Option<Conn>, statement: Option<Stmt>, text: Option<string>,
                        values: seq<Value>, total: int): Result<int>
  {
    var c1 := ConnectionAfterPrepare(driver, connection, text);
    var finish := FinishResult(driver, c1, StatementAfterPrepare(driver, connection, statement, text, values));
    if finish.Err? then Err(finish.fault)
    else if AttemptReturns(driver, connection, text, values) then Ok(total + driver.rowCount(text.value))
    else Err(RollbackFault(driver, c1))
  }

  /** Whether the prepare of `next`, once the current SQL ran on `connection`, returns. */
  predicate AdvanceReturns(driver: Driver, connection: Option<Conn>, next: Option<string>)
  {
    next.Some? && PrepareReturns(driver, connection, next.value)
  }

  /** The calls of that prepare, and the catch block's when it failed. */
  function AdvanceCalls(driver: Driver, connection: Option<Conn>, statement: Option<Stmt>, next: Option<string>): seq<Call>
  {
    (if next.Some? then PrepareCalls(driver, connection, next.value) else []) +
    (if AdvanceReturns(driver, connection, next) then []
     else RecoveryCalls(driver, ConnectionAfterPrepare(driver, connection, next), statement))
  }

  /** A chaining step whose execute failed goes straight to the catch block. */
  lemma BatchCallsWhenAttemptFails(driver: Driver, connection: Option<Conn>, statement: Option<Stmt>, text: Option<string>,
                                   values: seq<Value>, next: Option<string>)
    requires !AttemptReturns(driver, connection, text, values)
    ensures !BatchReturns(driver, connection, text, values, next)
    ensures BatchCalls(driver, connection, statement, text, values, next) ==
      AttemptCalls(driver, connection, text, values) + [] +
      RecoveryCalls(driver, ConnectionAfterPrepare(driver, connection, text),
                    StatementAfterPrepare(driver, connection, statement, text, values))
  {
  }

  /** An execute that returned leaves its connection live. */
  lemma AttemptLeavesLive(driver: Driver, connection: Option<Conn>, text: Option<string>, values: seq<Value>)
    requires AttemptReturns(driver, connection, text, values)
    ensures Live(ConnectionAfterPrepare(driver, connection, text))
  {
    assert !OpenFails(driver, connection);
  }

  /** A chaining step whose execute returned goes on to prepare `next` on the connection it left. */
  lemma BatchCallsWhenAttemptReturns(driver: Driver, connection: Option<Conn>, statement: Option<Stmt>, text: Option<string>,
                                     values: seq<Value>, next: Option<string>)
    requires AttemptReturns(driver, connection, text, values)
    ensures var c1 := ConnectionAfterPrepare(driver, connection, text);
      var s1 := StatementAfterPrepare(driver, connection, statement, text, values);
      && BatchCalls(driver, connection, statement, text, values, next) ==
           AttemptCalls(driver, connection, text, values) + [] + AdvanceCalls(driver, c1, s1, next)
      && (BatchReturns(driver, connection, text, values, next) <==> AdvanceReturns(driver, c1, next))
      && ConnectionAfterPrepare(driver, c1, next) == c1
  {
    var c1 := ConnectionAfterPrepare(driver, connection, text);
    var s1 := StatementAfterPrepare(driver, connection, statement, text, values);
    AttemptLeavesLive(driver, connection, text, values);
    assert ConnectionAfterPrepare(driver, c1, next) == c1;
    assert RepreparedCalls(driver, connection, text, values, next) + CatchCalls(driver, connection, statement, text, values, next)
        == AdvanceCalls(driver, c1, s1, next);
  }

  /** Regrouping a log appended in three steps. */
  lemma AppendThree(log: seq<Call>, a: seq<Call>, b: seq<Call>, c: seq<Call>)
    ensures log + a + b + c == log + (a + b + c)
  {
  }

  /** Regrouping a log appended in two steps. */
  lemma AppendParts(log: seq<Call>, a: seq<Call>, c: seq<Call>)
    ensures log + a + c == log + (a + [] + c)
  {
    assert a + [] == a;
  }

  // ---------------------------------------------------------------------
  // What the blocks never call
  // ---------------------------------------------------------------------

  /** A part of a log with no transaction call, no close and no update. */
  predicate Quiet(calls: seq<Call>)
  {
    forall i :: 0 <= i < |calls| ==> KindOf(calls[i]) == Other && !calls[i].ExecuteUpdate?
  }

  lemma QuietFilters(calls: seq<Call>)
    requires Quiet(calls)
    ensures Only(calls, Transaction) == [] && Only(calls, Closing) == [] && Updates(calls) == []
  {
    OnlyNone(calls, Transaction);
    OnlyNone(calls, Closing);
    UpdatesNone(calls);
  }

  lemma AttemptCallsAreQuiet(driver: Driver, connection: Option<Conn>, text: Option<string>, values: seq<Value>)
    ensures var cs := AttemptCalls(driver, connection, text, values);
      Only(cs, Transaction) == [] && Only(cs, Closing) == [] &&
      Updates(cs) == if PreparedWithParameters(driver, connection, text, values) then [text.value] else []
  {
    var prep := PrepareWithParametersCalls(driver, connection, text, values);
    assert Only(prep, Transaction) == [] && Only(prep, Closing) == [] && Updates(prep) == [] by {
      assert Quiet(prep);
      QuietFilters(prep);
    }
    if PreparedWithParameters(driver, connection, text, values) {
      var exec := [Call.ExecuteUpdate(text.value)];
      assert Only(exec, Transaction) == [] && Only(exec, Closing) == [] && Updates(exec) == [text.value] by {
        assert exec[..0] == [];
      }
      assert AttemptCalls(driver, connection, text, values) == prep + exec;
      OnlyAppend(prep, exec, Transaction);
      OnlyAppend(prep, exec, Closing);
      UpdatesAppend(prep, exec);
    } else {
      assert AttemptCalls(driver, connection, text, values) == prep;
    }
  }

  lemma CloseCallsOnlyClose(statement: Option<Stmt>, connection: Option<Conn>, faults: set<Call>)
    ensures var cs := CloseCalls(statement, connection, faults);
      Only(cs, Transaction) == [] && Only(cs, Closing) == cs && Updates(cs) == []
  {
    var cs := CloseCalls(statement, connection, faults);
    OnlyNone(cs, Transaction);
    OnlyAll(cs, Closing);
    UpdatesNone(cs);
  }

  /** A commit or a rollback on a connection that may be null: only a transaction call, or none. */
  lemma TransactionCallsOnlyTransaction(connection: Option<Conn>, c: Call)
    requires c.Commit? || c.Rollback?
    ensures var cs := TransactionCalls(connection, c);
      Only(cs, Transaction) == cs && Only(cs, Closing) == [] && Updates(cs) == []
  {
    var cs := TransactionCalls(connection, c);
    OnlyAll(cs, Transaction);
    OnlyNone(cs, Closing);
    UpdatesNone(cs);
  }

  /** The closes a catch or finally block makes once its commit or rollback returned, or none. */
  lemma GuardedCloseCalls(guard: bool, statement: Option<Stmt>, connection: Option<Conn>, faults: set<Call>)
    ensures var cs := if guard then CloseCalls(statement, connection, faults) else [];
      Only(cs, Transaction) == [] && Only(cs, Closing) == cs && Updates(cs) == []
  {
    if guard {
      CloseCallsOnlyClose(statement, connection, faults);
    }
  }

  /** Rolling back and then closing: one rollback when there is a connection, and the closes only after it returned. */
  lemma RecoveryCallsSplit(driver: Driver, connection: Option<Conn>, statement: Option<Stmt>)
    ensures var cs := RecoveryCalls(driver, connection, statement);
      && Only(cs, Transaction) == TransactionCalls(connection, Call.Rollback)
      && Only(cs, Closing) ==
           (if TransactionResult(driver, connection, Call.Rollback).Ok? then CloseCalls(statement, connection, driver.faults) else [])
      && Updates(cs) == []
  {
    var rollback := TransactionCalls(connection, Call.Rollback);
    var closes := if TransactionResult(driver, connection, Call.Rollback).Ok? then CloseCalls(statement, connection, driver.faults) else [];
    TransactionCallsOnlyTransaction(connection, Call.Rollback);
    GuardedCloseCalls(TransactionResult(driver, connection, Call.Rollback).Ok?, statement, connection, driver.faults);
    OnlyAppend(rollback, closes, Transaction);
    OnlyAppend(rollback, closes, Closing);
    UpdatesAppend(rollback, closes);
  }

  /** Committing and then closing: one commit when there is a connection, and the closes only after it returned. */
  lemma FinishCallsSplit(driver: Driver, connection: Option<Conn>, statement: Option<Stmt>)
    ensures var cs := FinishCalls(driver, connection, statement);
      var closes := if TransactionResult(driver, connection, Call.Commit).Ok? then CloseCalls(statement, connection, driver.faults) else [];
      && cs == TransactionCalls(connection, Call.Commit) + closes
      && (connection.Some? ==> cs == [Call.Commit] + closes)
      && Only(cs, Transaction) == TransactionCalls(connection, Call.Commit)
      && Only(cs, Closing) == closes
      && Updates(cs) == []
  {
    var commit := TransactionCalls(connection, Call.Commit);
    var closes := if TransactionResult(driver, connection, Call.Commit).Ok? then CloseCalls(statement, connection, driver.faults) else [];
    TransactionCallsOnlyTransaction(connection, Call.Commit);
    GuardedCloseCalls(TransactionResult(driver, connection, Call.Commit).Ok?, statement, connection, driver.faults);
    OnlyAppend(commit, closes, Transaction);
    OnlyAppend(commit, closes, Closing);
    UpdatesAppend(commit, closes);
  }

  /** The catch block of a chaining step: one rollback when it failed on a connection, the closes after it returned. */
  lemma CatchCallsSplit(driver: Driver, connection: Option<Conn>, statement: Option<Stmt>, text: Option<string>,
                        values: seq<Value>, next: Option<string>)
    ensures var cs := CatchCalls(driver, connection, statement, text, values, next);
      var c1 := ConnectionAfterPrepare(driver, connection, text);
      var s1 := StatementAfterPrepare(driver, connection, statement, text, values);
      var failed := !BatchReturns(driver, connection, text, values, next);
      && Only(cs, Transaction) == (if failed && c1.Some? then [Call.Rollback] else [])
      && Only(cs, Closing) ==
           (if failed && TransactionResult(driver, c1, Call.Rollback).Ok? then CloseCalls(s1, c1, driver.faults) else [])
      && Updates(cs) == []
  {
    if !BatchReturns(driver, connection, text, values, next) {
      RecoveryCallsSplit(driver, ConnectionAfterPrepare(driver, connection, text),
                         StatementAfterPrepare(driver, connection, statement, text, values));
    }
  }

  /** The catch block of `executeUpdate`: one rollback when the try block failed on a connection. */
  lemma UndoCallsSplit(driver: Driver, connection: Option<Conn>, text: Option<string>, values: seq<Value>)
    ensures var cs := UndoCalls(driver, connection, text, values);
      && Only(cs, Transaction) == cs
      && cs == (if AttemptReturns(driver, connection, text, values) || ConnectionAfterPrepare(driver, connection, text).None?
                then [] else [Call.Rollback])
      && Only(cs, Closing) == [] && Updates(cs) == []
  {
    if !AttemptReturns(driver, connection, text, values) {
      TransactionCallsOnlyTransaction(ConnectionAfterPrepare(driver, connection, text), Call.Rollback);
    }
  }

  /** The transaction calls of `executeUpdate`'s catch and finally blocks: a rollback if the try block failed, then the commit. */
  lemma UndoThenCommit(driver: Driver, connection: Option<Conn>, text: Option<string>, values: seq<Value>)
    ensures var c1 := ConnectionAfterPrepare(driver, connection, text);
      UndoCalls(driver, connection, text, values) + TransactionCalls(c1, Call.Commit) ==
      (if c1.None? then [] else (if AttemptReturns(driver, connection, text, values) then [] else [Call.Rollback]) + [Call.Commit])
  {
    UndoCallsSplit(driver, connection, text, values);
  }

  /**
   * What `executeUpdate` returns: the rows of the update added to the
   * total when the update ran and the commit and closes returned, and
   * otherwise `DBUtilsException` or, without a connection, a
   * `NullPointerException`.
   */
  lemma UpdateResultCases(driver: Driver, connection: Option<Conn>, statement: Option<Stmt>, text: Option<string>,
                          values: seq<Value>, total: int)
    ensures var r := UpdateResult(driver, connection, statement, text, values, total);
      && (r.Ok? ==> AttemptReturns(driver, connection, text, values) && r.value == total + driver.rowCount(text.value))
      && (r.Err? ==> r.fault in {DBUtilsException, NullPointerException("")})
  {
    var c1 := ConnectionAfterPrepare(driver, connection, text);
    var rollback := TransactionResult(driver, c1, Call.Rollback);
    assert RollbackFault(driver, c1) in {DBUtilsException, NullPointerException("")};
  }

  /** Whether `calls` ends with `tail`. */
  predicate EndsWith(calls: seq<Call>, tail: seq<Call>)
  {
    |tail| <= |calls| && calls[|calls| - |tail|..] == tail
  }

  /** A log whose last part is `finish` ends with it. */
  lemma EndsWithLastPart(a: seq<Call>, b: seq<Call>, finish: seq<Call>)
    ensures EndsWith(a + b + finish, finish)
  {
    var s := a + b + finish;
    assert s[|s| - |finish|..] == finish;
  }

  /** A log whose first two parts have no call of kind `k` has those of its last part. */
  lemma OnlyLast(a: seq<Call>, b: seq<Call>, c: seq<Call>, k: Kind)
    requires Only(a, k) == [] && Only(b, k) == []
    ensures Only(a + b + c, k) == Only(c, k)
  {
    OnlyAppend(a, b, k);
    OnlyAppend(a + b, c, k);
  }

  /** A log whose first part has no call of kind `k` has those of the other two. */
  lemma OnlyTail(a: seq<Call>, b: seq<Call>, c: seq<Call>, k: Kind)
    requires Only(a, k) == []
    ensures Only(a + b + c, k) == Only(b, k) + Only(c, k)
  {
    OnlyAppend(a, b, k);
    OnlyAppend(a + b, c, k);
  }

  /** A log whose last two parts execute nothing executes what its first part does. */
  lemma UpdatesFirst(a: seq<Call>, b: seq<Call>, c: seq<Call>)
    requires Updates(b) == [] && Updates(c) == []
    ensures Updates(a + b + c) == Updates(a)
  {
    UpdatesAppend(a, b);
    UpdatesAppend(a + b, c);
  }

  // ---------------------------------------------------------------------
  // The transaction guarantees, on the call log
  // ---------------------------------------------------------------------

  /**
   * A chaining step never commits. It rolls back exactly when its try block
   * failed on a connection that is there, closes only after a rollback that
   * returned, and executes just its own statement, once, when that got as
   * far as the update.
   */
  lemma BatchNeverCommits(driver: Driver, connection: Option<Conn>, statement: Option<Stmt>,
                          text: Option<string>, values: seq<Value>, next: Option<string>)
    ensures var calls := BatchCalls(driver, connection, statement, text, values, next);
      var c1 := ConnectionAfterPrepare(driver, connection, text);
      var s1 := StatementAfterPrepare(driver, connection, statement, text, values);
      var failed := !BatchReturns(driver, connection, text, values, next);
      && Only(calls, Transaction) == (if failed && c1.Some? then [Call.Rollback] else [])
      && Only(calls, Closing) ==
           (if failed && TransactionResult(driver, c1, Call.Rollback).Ok? then CloseCalls(s1, c1, driver.faults) else [])
      && Updates(calls) == (if PreparedWithParameters(driver, connection, text, values) then [text.value] else [])
  {
    var attempt := AttemptCalls(driver, connection, text, values);
    var reprepare := RepreparedCalls(driver, connection, text, values, next);
    var recovery := CatchCalls(driver, connection, statement, text, values, next);
    AttemptCallsAreQuiet(driver, connection, text, values);
    QuietFilters(reprepare);
    CatchCallsSplit(driver, connection, statement, text, values, next);
    OnlyLast(attempt, reprepare, recovery, Transaction);
    OnlyLast(attempt, reprepare, recovery, Closing);
    UpdatesFirst(attempt, reprepare, recovery);
  }

  /**
   * `executeUpdate` commits exactly once whenever there is a connection,
   * after a rollback that happens exactly when the try block failed.
   */
  lemma UpdateCommitsOnce(driver: Driver, connection: Option<Conn>, statement: Option<Stmt>,
                          text: Option<string>, values: seq<Value>)
    ensures var c1 := ConnectionAfterPrepare(driver, connection, text);
      Only(UpdateCalls(driver, connection, statement, text, values), Transaction) ==
        (if c1.None? then [] else (if AttemptReturns(driver, connection, text, values) then [] else [Call.Rollback]) + [Call.Commit])
  {
    var c1 := ConnectionAfterPrepare(driver, connection, text);
    var s1 := StatementAfterPrepare(driver, connection, statement, text, values);
    var attempt := AttemptCalls(driver, connection, text, values);
    var rollback := UndoCalls(driver, connection, text, values);
    var finish := FinishCalls(driver, c1, s1);
    assert UpdateCalls(driver, connection, statement, text, values) == attempt + rollback + finish;
    AttemptCallsAreQuiet(driver, connection, text, values);
    UndoCallsSplit(driver, connection, text, values);
    FinishCallsSplit(driver, c1, s1);
    OnlyTail(attempt, rollback, finish, Transaction);
    UndoThenCommit(driver, connection, text, values);
  }

  /** `executeUpdate` closes only after a commit that returned. */
  lemma UpdateClosesAfterCommit(driver: Driver, connection: Option<Conn>, statement: Option<Stmt>,
                                text: Option<string>, values: seq<Value>)
    ensures var c1 := ConnectionAfterPrepare(driver, connection, text);
      var s1 := StatementAfterPrepare(driver, connection, statement, text, values);
      Only(UpdateCalls(driver, connection, statement, text, values), Closing) ==
        if TransactionResult(driver, c1, Call.Commit).Ok? then CloseCalls(s1, c1, driver.faults) else []
  {
    var c1 := ConnectionAfterPrepare(driver, connection, text);
    var s1 := StatementAfterPrepare(driver, connection, statement, text, values);
    var attempt := AttemptCalls(driver, connection, text, values);
    var rollback := UndoCalls(driver, connection, text, values);
    var finish := FinishCalls(driver, c1, s1);
    assert UpdateCalls(driver, connection, statement, text, values) == attempt + rollback + finish;
    AttemptCallsAreQuiet(driver, connection, text, values);
    UndoCallsSplit(driver, connection, text, values);
    FinishCallsSplit(driver, c1, s1);
    OnlyLast(attempt, rollback, finish, Closing);
  }

  /** Once there is a connection, `executeUpdate`'s log ends with the commit and then those closes, and nothing else. */
  lemma UpdateEndsWithCommit(driver: Driver, connection: Option<Conn>, statement: Option<Stmt>,
                             text: Option<string>, values: seq<Value>)
    ensures var calls := UpdateCalls(driver, connection, statement, text, values);
      var c1 := ConnectionAfterPrepare(driver, connection, text);
      var s1 := StatementAfterPrepare(driver, connection, statement, text, values);
      var closes := if TransactionResult(driver, c1, Call.Commit).Ok? then CloseCalls(s1, c1, driver.faults) else [];
      c1.Some? ==> EndsWith(calls, [Call.Commit] + closes)
  {
    var c1 := ConnectionAfterPrepare(driver, connection, text);
    var s1 := StatementAfterPrepare(driver, connection, statement, text, values);
    var attempt := AttemptCalls(driver, connection, text, values);
    var rollback := UndoCalls(driver, connection, text, values);
    var finish := FinishCalls(driver, c1, s1);
    assert UpdateCalls(driver, connection, statement, text, values) == attempt + rollback + finish;
    if c1.Some? {
      FinishCallsSplit(driver, c1, s1);
      EndsWithLastPart(attempt, rollback, finish);
    }
  }

  /** `executeUpdate` executes its own statement, once, when that got as far as the update, and nothing else. */
  lemma UpdateExecutesOnce(driver: Driver, connection: Option<Conn>, statement: Option<Stmt>,
                           text: Option<string>, values: seq<Value>)
    ensures Updates(UpdateCalls(driver, connection, statement, text, values)) ==
      (if PreparedWithParameters(driver, connection, text, values) then [text.value] else [])
  {
    var c1 := ConnectionAfterPrepare(driver, connection, text);
    var s1 := StatementAfterPrepare(driver, connection, statement, text, values);
    var attempt := AttemptCalls(driver, connection, text, values);
    var rollback := UndoCalls(driver, connection, text, values);
    var finish := FinishCalls(driver, c1, s1);
    assert UpdateCalls(driver, connection, statement, text, values) == attempt + rollback + finish;
    AttemptCallsAreQuiet(driver, connection, text, values);
    UndoCallsSplit(driver, connection, text, values);
    FinishCallsSplit(driver, c1, s1);
    UpdatesFirst(attempt, rollback, finish);
  }

  /** A batch over one `Query` (its superclass part), with the running row total. */
  class BatchQuery {
    const query: Query
    var affectedRows: int

    ghost predicate Valid()
      reads this, query, query.connection
    {
      query.Valid()
    }

    constructor (query: Query)
      ensures this.query == query && affectedRows == 0
    {
      this.query := query;
      affectedRows := 0;
    }

    /**
     * `new BatchQuery(connection, sql)`: holds the SQL and switches the
     * connection's auto-commit off; a failure there fails the constructor.
     */
    static method New(connection: DBUtilsConnection, sql: Option<string>) returns (r: Result<BatchQuery>)
      requires connection.Valid()
      modifies connection
      ensures connection.Valid() && connection.statement == old(connection.statement)
      ensures r.Ok? <==>
        (Live(old(connection.connection)) || Call.OpenConnection !in connection.driver.faults) &&
        Call.SetAutoCommit(false) !in connection.driver.faults
      ensures r.Err? ==> r.fault == DBUtilsException && connection.connection == Opened(connection.driver, old(connection.connection))
      ensures connection.calls == old(connection.calls) + OpenCalls(old(connection.connection)) +
        (if OpenFails(connection.driver, old(connection.connection)) then [] else [Call.SetAutoCommit(false)])
      ensures r.Ok? ==>
        fresh(r.value) && fresh(r.value.query) && r.value.Valid() &&
        r.value.query.connection == connection && r.value.query.sql == sql &&
        r.value.query.keys == [] && r.value.query.parameters == map[] && r.value.affectedRows == 0 &&
        Live(connection.connection) && !connection.connection.value.autoCommit &&
        connection.calls == old(connection.calls) + OpenCalls(old(connection.connection)) + [Call.SetAutoCommit(false)]
    {
      var q := new Query.WithSql(connection, sql);
      var b := new BatchQuery(q);
      var d := connection.DisableAutoCommit();
      if d.Err? {
        return Err(d.fault);
      }
      r := Ok(b);
    }

    /** `setParameter`: sets the parameter on the query and returns this batch. */
    method SetParameter(key: string, value: Value) returns (r: BatchQuery)
      requires Valid() && ParameterParser.LiteralKey(key)
      modifies query
      ensures Valid() && r == this && query.sql == old(query.sql)
      ensures query.parameters == old(query.parameters)[key := value]
      ensures query.keys == if key in old(query.keys) then old(query.keys) else old(query.keys) + [key]
    {
      var _ := query.SetParameter(key, value);
      r := this;
    }

    /**
     * `setEncryptedParameter`: sets the parameter to the encrypted value and
     * returns this batch; the cipher is a parameter.
     */
    method SetEncryptedParameter(key: string, value: Value, encrypt: Value -> Value) returns (r: BatchQuery)
      requires Valid() && ParameterParser.LiteralKey(key)
      modifies query
      ensures Valid() && r == this && query.sql == old(query.sql)
      ensures query.parameters == old(query.parameters)[key := encrypt(value)]
      ensures query.keys == if key in old(query.keys) then old(query.keys) else old(query.keys) + [key]
    {
      var _ := query.SetParameter(key, encrypt(value));
      r := this;
    }

    /**
     * The try block both `prepareBatchQuery` and `executeUpdate` start
     * with: prepare the current SQL with its parameters, then execute it.
     */
    method Attempt() returns (count: Result<nat>)
      requires Valid()
      modifies query.connection
      ensures Valid()
      ensures var driver, text, values := query.connection.driver, Template(query.sql, query.keys), Values(query.sql, query.keys, query.parameters);
        var c0 := old(query.connection.connection);
        && query.connection.calls == old(query.connection.calls) + AttemptCalls(driver, c0, text, values)
        && query.connection.connection == ConnectionAfterPrepare(driver, c0, text)
        && query.connection.statement == StatementAfterPrepare(driver, c0, old(query.connection.statement), text, values)
        && (count.Ok? <==> AttemptReturns(driver, c0, text, values))
        && (count.Ok? ==> count.value == driver.rowCount(text.value))
      ensures count.Err? ==> count.fault == DBUtilsException
    {
      var p := query.PrepareStatementWithParameters();
      if p.Err? {
        count := Err(p.fault);
      } else {
        ghost var prepared := query.connection.calls;
        count := query.connection.ExecuteUpdate();
        assert query.connection.calls == prepared + [Call.ExecuteUpdate(query.connection.statement.value.sql)];
      }
    }

    /**
     * The catch block of `prepareBatchQuery`: roll back, close, and fail
     * with `DBUtilsException`, unless the rollback or the close throws first.
     */
    method Recover() returns (r: Result<BatchQuery>)
      requires Valid()
      modifies query.connection
      ensures Valid()
      ensures query.connection.calls ==
        old(query.connection.calls) + RecoveryCalls(query.connection.driver, old(query.connection.connection), old(query.connection.statement))
      ensures r == Err(RollbackFault(query.connection.driver, old(query.connection.connection)))
    {
      var rollback := query.connection.Rollback();
      if rollback.Err? {
        r := Err(rollback.fault);
      } else {
        ghost var rolledBack := query.connection.calls;
        var close := query.connection.Close();
        r := if close.Err? then Err(close.fault) else Err(DBUtilsException);
        assert query.connection.calls == rolledBack + CloseCalls(old(query.connection.statement), old(query.connection.connection), query.connection.driver.faults);
      }
    }

    /**
     * `prepareBatchQuery(sql)`: makes `sql` the current SQL, executes it
     * with its parameters and adds the row count to the total, then
     * prepares `sql` again as it stands. A fault rolls back, closes the
     * connection and surfaces as `DBUtilsException`, unless the rollback or
     * the close throws first.
     */
    method PrepareBatchQuery(sql: Option<string>) returns (r: Result<BatchQuery>)
      requires Valid()
      modifies this, query, query.connection
      ensures Valid()
      ensures query.sql == sql && query.keys == old(query.keys) && query.parameters == old(query.parameters)
      ensures var driver, text, values := query.connection.driver, Template(sql, query.keys), Values(sql, query.keys, query.parameters);
        var c0 := old(query.connection.connection);
        && query.connection.calls ==
             old(query.connection.calls) + BatchCalls(driver, c0, old(query.connection.statement), text, values, sql)
        && (r.Ok? <==> BatchReturns(driver, c0, text, values, sql))
        && (r.Err? ==> r.fault == RollbackFault(driver, ConnectionAfterPrepare(driver, c0, text)))
        && affectedRows == old(affectedRows) + (if AttemptReturns(driver, c0, text, values) then driver.rowCount(text.value) else 0)
      ensures r.Ok? ==>
        r.value == this && sql.Some? && Live(query.connection.connection) &&
        query.connection.statement == Some(Stmt(sql.value, false, map[]))
    {
      query.SetSql(sql);
      r := Chain(sql);
    }

    /**
     * The evidently intended `prepareBatchQuery(sql)`: executes the current
     * SQL with its parameters and adds its row count to the total, then
     * makes `sql` the current SQL and prepares it. A fault is handled as in
     * the method above.
     */
    method PrepareNextQuery(sql: Option<string>) returns (r: Result<BatchQuery>)
      requires Valid()
      modifies this, query, query.connection
      ensures Valid()
      ensures query.keys == old(query.keys) && query.parameters == old(query.parameters)
      ensures var driver, text, values := query.connection.driver, Template(old(query.sql), query.keys), Values(old(query.sql), query.keys, query.parameters);
        var c0 := old(query.connection.connection);
        && query.connection.calls ==
             old(query.connection.calls) + BatchCalls(driver, c0, old(query.connection.statement), text, values, sql)
        && (r.Ok? <==> BatchReturns(driver, c0, text, values, sql))
        && (r.Err? ==> r.fault == RollbackFault(driver, ConnectionAfterPrepare(driver, c0, text)))
        && affectedRows == old(affectedRows) + (if AttemptReturns(driver, c0, text, values) then driver.rowCount(text.value) else 0)
        && query.sql == (if AttemptReturns(driver, c0, text, values) then sql else old(query.sql))
      ensures r.Ok? ==>
        r.value == this && sql.Some? && Live(query.connection.connection) &&
        query.connection.statement == Some(Stmt(sql.value, false, map[]))
    {
      r := Chain(sql);
    }

    /**
     * The rest of a chaining step once the current SQL ran: make `next`
     * current and prepare it; the catch block when that fails.
     */
    method Advance(next: Option<string>) returns (r: Result<BatchQuery>)
      requires Valid()
      modifies query, query.connection
      ensures Valid()
      ensures query.keys == old(query.keys) && query.parameters == old(query.parameters) && query.sql == next
      ensures var driver, c, s := query.connection.driver, old(query.connection.connection), old(query.connection.statement);
        && query.connection.calls == old(query.connection.calls) + AdvanceCalls(driver, c, s, next)
        && (r.Ok? <==> AdvanceReturns(driver, c, next))
        && (r.Err? ==> r.fault == RollbackFault(driver, ConnectionAfterPrepare(driver, c, next)))
      ensures r.Ok? ==>
        r.value == this && next.Some? && Live(query.connection.connection) &&
        query.connection.statement == Some(Stmt(next.value, false, map[]))
    {
      ghost var driver, c, s := query.connection.driver, query.connection.connection, query.connection.statement;
      query.SetSql(next);
      var prepared := query.connection.PrepareStatement(next);
      if prepared.Ok? {
        return Ok(this);
      }
      ghost var reprepare := query.connection.calls;
      r := Recover();
      assert query.connection.calls == reprepare + RecoveryCalls(driver, ConnectionAfterPrepare(driver, c, next), s);
    }

    /**
     * The body both chaining methods share: execute the current SQL, add
     * its row count, make `next` current and prepare it; roll back and
     * close on a fault.
     */
    method Chain(next: Option<string>) returns (r: Result<BatchQuery>)
      requires Valid()
      modifies this, query, query.connection
      ensures Valid()
      ensures query.keys == old(query.keys) && query.parameters == old(query.parameters)
      ensures var driver, text, values := query.connection.driver, Template(old(query.sql), query.keys), Values(old(query.sql), query.keys, query.parameters);
        var c0 := old(query.connection.connection);
        && query.connection.calls ==
             old(query.connection.calls) + BatchCalls(driver, c0, old(query.connection.statement), text, values, next)
        && (r.Ok? <==> BatchReturns(driver, c0, text, values, next))
        && (r.Err? ==> r.fault == RollbackFault(driver, ConnectionAfterPrepare(driver, c0, text)))
        && affectedRows == old(affectedRows) + (if AttemptReturns(driver, c0, text, values) then driver.rowCount(text.value) else 0)
        && query.sql == (if AttemptReturns(driver, c0, text, values) then next else old(query.sql))
      ensures r.Ok? ==>
        r.value == this && next.Some? && Live(query.connection.connection) &&
        query.connection.statement == Some(Stmt(next.value, false, map[]))
    {
      ghost var driver, text, values := query.connection.driver, Template(query.sql, query.keys), Values(query.sql, query.keys, query.parameters);
      ghost var c0, s0 := query.connection.connection, query.connection.statement;
      var count := Attempt();
      if count.Err? {
        BatchCallsWhenAttemptFails(driver, c0, s0, text, values, next);
        r := Recover();
        AppendParts(old(query.connection.calls), AttemptCalls(driver, c0, text, values),
                    RecoveryCalls(driver, ConnectionAfterPrepare(driver, c0, text), StatementAfterPrepare(driver, c0, s0, text, values)));
        return;
      }
      affectedRows := affectedRows + count.value;
      BatchCallsWhenAttemptReturns(driver, c0, s0, text, values, next);
      r := Advance(next);
      AppendParts(old(query.connection.calls), AttemptCalls(driver, c0, text, values),
                  AdvanceCalls(driver, ConnectionAfterPrepare(driver, c0, text), StatementAfterPrepare(driver, c0, s0, text, values), next));
    }

    /**
     * The finally block of `executeUpdate`: commit, then close; an
     * exception from the commit skips the close.
     */
    method CommitAndClose() returns (r: Outcome)
      requires Valid()
      modifies query.connection
      ensures Valid()
      ensures query.connection.calls ==
        old(query.connection.calls) + FinishCalls(query.connection.driver, old(query.connection.connection), old(query.connection.statement))
      ensures r == FinishResult(query.connection.driver, old(query.connection.connection), old(query.connection.statement))
      ensures r.Ok? ==> !LiveStatement(query.connection.statement) && !Live(query.connection.connection)
    {
      r := query.connection.Commit();
      if r.Ok? {
        ghost var committed := query.connection.calls;
        var close := query.connection.Close();
        if close.Err? {
          r := Err(close.fault);
        }
        assert query.connection.calls == committed + CloseCalls(old(query.connection.statement), old(query.connection.connection), query.connection.driver.faults);
      }
    }

    /** The catch block of `executeUpdate`: roll back, and fail with `DBUtilsException` unless the rollback throws first. */
    method Undo() returns (r: Result<int>)
      requires Valid()
      modifies query.connection
      ensures Valid()
      ensures query.connection.connection == old(query.connection.connection)
      ensures query.connection.statement == old(query.connection.statement)
      ensures query.connection.calls ==
        old(query.connection.calls) + TransactionCalls(old(query.connection.connection), Call.Rollback)
      ensures r == Err(RollbackFault(query.connection.driver, old(query.connection.connection)))
    {
      var rolledBack := query.connection.Rollback();
      r := if rolledBack.Err? then Err(rolledBack.fault) else Err(DBUtilsException);
    }

    /**
     * `executeUpdate`: executes the current SQL with its parameters and
     * returns the total plus its row count. A fault rolls back and surfaces
     * as `DBUtilsException`; commit and then close run on every path, and
     * an exception from either replaces the outcome.
     */
    method ExecuteUpdate() returns (r: Result<int>)
      requires Valid()
      modifies query.connection
      ensures Valid()
      ensures var driver, text, values := query.connection.driver, Template(query.sql, query.keys), Values(query.sql, query.keys, query.parameters);
        var c0, s0 := old(query.connection.connection), old(query.connection.statement);
        && query.connection.calls == old(query.connection.calls) + UpdateCalls(driver, c0, s0, text, values)
        && r == UpdateResult(driver, c0, s0, text, values, affectedRows)
      ensures r.Ok? ==> !LiveStatement(query.connection.statement) && !Live(query.connection.connection)
    {
      ghost var driver, text, values := query.connection.driver, Template(query.sql, query.keys), Values(query.sql, query.keys, query.parameters);
      ghost var c0, s0 := query.connection.connection, query.connection.statement;
      ghost var c1 := ConnectionAfterPrepare(driver, c0, text);
      ghost var s1 := StatementAfterPrepare(driver, c0, s0, text, values);
      var count := Attempt();
      ghost var tried := query.connection.calls;
      if count.Ok? {
        r := Ok(affectedRows + count.value);
      } else {
        // The fault is a `DBUtilsException`, which the catch block handles.
        r := Undo();
      }
      assert query.connection.calls == tried + UndoCalls(driver, c0, text, values);
      assert r == if AttemptReturns(driver, c0, text, values) then Ok(affectedRows + driver.rowCount(text.value))
                  else Err(RollbackFault(driver, c1));
      var finish := CommitAndClose();
      assert finish == FinishResult(driver, c1, s1);
      if finish.Err? {
        r := Err(finish.fault);
      }
      AppendThree(old(query.connection.calls), AttemptCalls(driver, c0, text, values), UndoCalls(driver, c0, text, values),
                  FinishCalls(driver, c1, s1));
    }
  }

  /**
   * One chained statement and one final statement, each touching one row,
   * total two rows.
   */
  method ChainedTotal(batch: BatchQuery, sql: Option<string>) returns (r: Result<int>)
    requires batch.Valid() && batch.affectedRows == 0
    requires forall s :: batch.query.connection.driver.rowCount(s) == 1
    modifies batch, batch.query, batch.query.connection
    ensures r.Ok? ==> r.value == 2
  {
    var chained := batch.PrepareBatchQuery(sql);
    if chained.Err? {
      return Err(chained.fault);
    }
    r := batch.ExecuteUpdate();
  }
}
