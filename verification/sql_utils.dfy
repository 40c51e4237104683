/** `SQLUtils`: `Exec` prepares and executes a statement on one connection,
    `ExecPrefetch` drains its result sets, classifies the driver's status and
    always releases the cursor, and `GetDBOErrorInfo` is the classifier.
    The driver calls `DB::connection`, `query`, `prepare`, `bindValue`,
    `execute`, `fetchAll`, `nextRowset` and `closeCursor`, and every catch
    that logs and reports an exception, are recorded as events of a trace;
    `getPdo`, `columnCount` and `errorInfo` leave no event. */
module SqlUtils {
  import opened Wrappers
  import opened Driver
  import opened Rowsets
  import opened Exceptions

  /** The method whose `catch` block logged and reported an exception. */
  datatype Site = InExec | InExecPrefetch

  /** One observable step. `Report` stands for the two `Log::error` lines
      (statement text and exception message) and the `Handler::report` call. */
  datatype Event =
    | Lookup(name: string)
    | Query(connection: string, sql: string)
    | Prepare(connection: string, sql: string)
    | Bind(key: BindKey, data: Value, paramType: ParamType)
    | Execute
    | FetchAll(style: FetchStyle)
    | NextRowset(advanced: bool)
    | CloseCursor
    | Report(site: Site, query: string, error: Exception)

  /** What a step returned or threw, with the events it produced. */
  datatype Traced<T> = Traced(result: Result<T, Exception>, trace: seq<Event>)

  /** The SQLSTATE of a successful statement. */
  const SuccessSqlState := "00000"

  /** Message of the exception `DB::connection` throws for an unknown name. */
  function NotConfigured(name: string): string
  {
    "Database [" + name + "] not configured."
  }

  /** `isset($a) and count($a) > 0` guards each loop: an absent array has no entries. */
  function Entries<T>(a: Option<seq<T>>): seq<T>
  {
    a.GetOr([])
  }

  // ---------------------------------------------------------------------
  // Reference traces

  /** The `query` events of running `options` one after another on `connection`. */
  function QueryEvents(connection: string, options: seq<string>): (es: seq<Event>)
    ensures |es| == |options|
  {
    seq(|options|, i requires 0 <= i < |options| => Query(connection, options[i]))
  }

  /** The `bindValue` events of binding `params` in order, each with its own data and type. */
  function BindEvents(params: seq<Param>): (es: seq<Event>)
    ensures |es| == |params|
  {
    seq(|params|, i requires 0 <= i < |params| => Bind(params[i].key, params[i].data, params[i].paramType))
  }

  /** The events of `n` complete iterations of the drain loop of `st`. */
  function DrainEvents(st: Statement, style: FetchStyle, n: nat): (es: seq<Event>)
    ensures |es| == 2 * n
  {
    if n == 0 then []
    else DrainEvents(st, style, n - 1) + [FetchAll(style), NextRowset(HasNextRowset(st, n - 1))]
  }

  /** `j` is the first set a drain reaches whose `fetchAll` throws. */
  predicate FirstFetchFailure(st: Statement, j: nat)
  {
    && j < Span(st)
    && SetAt(st, j).fetch.Failure?
    && forall i :: 0 <= i < j ==> SetAt(st, i).fetch.Success?
  }

  /** The set whose `fetchAll` throws first, when the drain does not run cleanly. */
  function FirstFailure(st: Statement): (j: nat)
    requires !DrainsCleanly(st)
    ensures FirstFetchFailure(st, j)
  {
    FailureFrom(st, 0)
  }

  /** Search for the first throwing fetch, given that the sets before `i` fetch cleanly. */
  function FailureFrom(st: Statement, i: nat): (j: nat)
    requires !DrainsCleanly(st)
    requires i <= Span(st)
    requires forall k :: 0 <= k < i ==> SetAt(st, k).fetch.Success?
    ensures i <= j && FirstFetchFailure(st, j)
    decreases Span(st) - i
  {
    if SetAt(st, i).fetch.Failure? then i else FailureFrom(st, i + 1)
  }

  // ---------------------------------------------------------------------
  // Classification

  /** `GetDBOErrorInfo`: `None` (null) when the driver reports no triple or a
      successful one, otherwise the triple unchanged. */
  function GetDBOErrorInfo(info: Option<ErrorInfo>): (r: Option<ErrorInfo>)
    ensures r.None? <==> info.None? || (info.value.sqlState == "00000" && info.value.driverCode == 0)
    ensures r.Some? ==> r == info
  {
    if info.Some? && info.value.sqlState == SuccessSqlState && info.value.driverCode == 0 then None
    else info
  }

  // ---------------------------------------------------------------------
  // Exec

  /** Obtains the connection: the one supplied, else the one configured under `name`. */
  function Connect(registry: map<string, Connection>, name: string, dbConn: Option<Connection>): (r: Traced<Connection>)
    ensures dbConn.Some? ==> r == Traced(Success(dbConn.value), [])
    ensures dbConn.None? ==> r.trace == [Lookup(name)]
    ensures dbConn.None? ==> (r.result.Success? <==> name in registry)
    ensures dbConn.None? && name in registry ==> r.result.value == registry[name]
  {
    if dbConn.Some? then Traced(Success(dbConn.value), [])
    else if name in registry then Traced(Success(registry[name]), [Lookup(name)])
    else Traced(Failure(Thrown(NotConfigured(name))), [Lookup(name)])
  }

  /** Index of the first option whose direct execution throws, or `|options|` when none does. */
  function FirstRejected(conn: Connection, options: seq<string>): (j: nat)
    ensures j <= |options|
    ensures forall i :: 0 <= i < j ==> options[i] !in conn.queryErrors
    ensures j < |options| ==> options[j] in conn.queryErrors
    decreases |options|
  {
    if |options| == 0 || options[0] in conn.queryErrors then 0
    else 1 + FirstRejected(conn, options[1..])
  }

  /** The statement-options loop: runs each option in order on `conn` and
      stops at the first that throws. */
  function RunOptions(conn: Connection, options: seq<string>): (r: Traced<()>)
    ensures var j := FirstRejected(conn, options);
      j == |options| ==> r == Traced(Success(()), QueryEvents(conn.name, options))
    ensures var j := FirstRejected(conn, options);
      j < |options| ==>
        r == Traced(Failure(Thrown(conn.queryErrors[options[j]])), QueryEvents(conn.name, options[..j + 1]))
    ensures forall i :: 0 <= i < |r.trace| ==> r.trace[i].Query?
    decreases |options|
  {
    if |options| == 0 then Traced(Success(()), [])
    else
      var head := Query(conn.name, options[0]);
      if options[0] in conn.queryErrors then
        assert options[..1] == [options[0]];
        Traced(Failure(Thrown(conn.queryErrors[options[0]])), [head])
      else
        var rest := RunOptions(conn, options[1..]);
        var j := FirstRejected(conn, options[1..]);
        assert [head] + QueryEvents(conn.name, options[1..]) == QueryEvents(conn.name, options);
        assert j < |options| - 1 ==> options[..j + 2] == [options[0]] + options[1..][..j + 1];
        Traced(rest.result, [head] + rest.trace)
  }

  /** Index of the first parameter whose binding throws, or `|params|` when none does. */
  function FirstBadBind(st: Statement, params: seq<Param>): (j: nat)
    ensures j <= |params|
    ensures forall i :: 0 <= i < j ==> params[i].key !in st.bindErrors
    ensures j < |params| ==> params[j].key in st.bindErrors
    decreases |params|
  {
    if |params| == 0 || params[0].key in st.bindErrors then 0
    else 1 + FirstBadBind(st, params[1..])
  }

  /** The parameter loop: binds each parameter in order and stops at the
      first binding that throws. */
  function BindAll(st: Statement, params: seq<Param>): (r: Traced<()>)
    ensures var j := FirstBadBind(st, params);
      j == |params| ==> r == Traced(Success(()), BindEvents(params))
    ensures var j := FirstBadBind(st, params);
      j < |params| ==>
        r == Traced(Failure(Thrown(st.bindErrors[params[j].key])), BindEvents(params[..j + 1]))
    ensures forall i :: 0 <= i < |r.trace| ==> r.trace[i].Bind?
    decreases |params|
  {
    if |params| == 0 then Traced(Success(()), [])
    else
      var head := Bind(params[0].key, params[0].data, params[0].paramType);
      if params[0].key in st.bindErrors then
        assert params[..1] == [params[0]];
        Traced(Failure(Thrown(st.bindErrors[params[0].key])), [head])
      else
        var rest := BindAll(st, params[1..]);
        var j := FirstBadBind(st, params[1..]);
        assert [head] + BindEvents(params[1..]) == BindEvents(params);
        assert j < |params| - 1 ==> params[..j + 2] == [params[0]] + params[1..][..j + 1];
        Traced(rest.result, [head] + rest.trace)
  }

  /** An event of a driver call made on the connection or the prepared statement. */
  predicate StatementEvent(e: Event)
  {
    e.Query? || e.Prepare? || e.Bind? || e.Execute?
  }

  /** Binding the parameters of `st`, then executing it. */
  function BindAndExecute(st: Statement, params: seq<Param>): (r: Traced<Statement>)
    ensures forall i :: 0 <= i < |r.trace| ==> StatementEvent(r.trace[i])
    ensures r.result.Success? ==> r == Traced(Success(st), BindEvents(params) + [Execute])
  {
    var b := BindAll(st, params);
    if b.result.Failure? then Traced(Failure(b.result.error), b.trace)
    else if st.executeError.Some? then Traced(Failure(Thrown(st.executeError.value)), b.trace + [Execute])
    else Traced(Success(st), b.trace + [Execute])
  }

  /** Everything `Exec` does once it holds a connection. */
  function OnConnection(conn: Connection, query: string, params: seq<Param>, options: seq<string>): (r: Traced<Statement>)
    ensures forall i :: 0 <= i < |r.trace| ==> StatementEvent(r.trace[i])
    ensures r.result.Success? ==>
      && conn.openError.None?
      && PrepareResult(conn, query) == Success(r.result.value)
      && r.trace == QueryEvents(conn.name, options) + [Prepare(conn.name, query)] + BindEvents(params) + [Execute]
  {
    // the first `getPdo()`, in the options loop or before `prepare`, opens the connection
    if conn.openError.Some? then Traced(Failure(Thrown(conn.openError.value)), [])
    else
      var o := RunOptions(conn, options);
      if o.result.Failure? then Traced(Failure(o.result.error), o.trace)
      else
        var prepared := o.trace + [Prepare(conn.name, query)];
        match PrepareResult(conn, query)
        case Failure(m) => Traced(Failure(Thrown(m)), prepared)
        case Success(st) =>
          var rest := BindAndExecute(st, params);
          Traced(rest.result, prepared + rest.trace)
  }

  /** The `try` block of `Exec`. */
  function ExecSteps(
    registry: map<string, Connection>, connectionName: string, query: string,
    params: seq<Param>, options: seq<string>, dbConn: Option<Connection>): (r: Traced<Statement>)
    ensures dbConn.None? <==> |r.trace| > 0 && r.trace[0] == Lookup(connectionName)
    ensures forall i :: 0 <= i < |r.trace| ==> r.trace[i] == Lookup(connectionName) || StatementEvent(r.trace[i])
    ensures forall i :: 0 < i < |r.trace| ==> StatementEvent(r.trace[i])
  {
    var c := Connect(registry, connectionName, dbConn);
    if c.result.Failure? then Traced(Failure(c.result.error), c.trace)
    else
      var rest := OnConnection(c.result.value, query, params, options);
      Traced(rest.result, c.trace + rest.trace)
  }

  /** `Exec`: on success the executed statement, on failure the exception
      raised underneath, reported and rethrown unchanged. `fetchStyle` is
      accepted but not used, as in the source. */
  function Exec(
    registry: map<string, Connection>, connectionName: string, query: string,
    params: Option<seq<Param>> := None, fetchStyle: FetchStyle := FetchBoth,
    stmtOptions: Option<seq<string>> := None, dbConn: Option<Connection> := None): (r: Traced<Statement>)
    ensures r.result.Failure? ==> |r.trace| > 0 && r.trace[|r.trace| - 1] == Report(InExec, query, r.result.error)
    ensures forall i :: 0 <= i < |r.trace| ==> r.trace[i] != CloseCursor
  {
    var steps := ExecSteps(registry, connectionName, query, Entries(params), Entries(stmtOptions), dbConn);
    if steps.result.Failure? then
      Traced(steps.result, steps.trace + [Report(InExec, query, steps.result.error)])
    else steps
  }

  /** The connection `Exec` works on: the one supplied, else the one
      configured under `name`, else none (the lookup throws). */
  function ResolvedConnection(registry: map<string, Connection>, name: string, dbConn: Option<Connection>): Option<Connection>
  {
    if dbConn.Some? then dbConn
    else if name in registry then Some(registry[name])
    else None
  }

  /** A connection is looked up by name, once and first, exactly when none was supplied. */
  lemma ExecLooksUpOnlyWithoutConnection(
    registry: map<string, Connection>, connectionName: string, query: string,
    params: Option<seq<Param>>, fetchStyle: FetchStyle,
    stmtOptions: Option<seq<string>>, dbConn: Option<Connection>)
    ensures var r := Exec(registry, connectionName, query, params, fetchStyle, stmtOptions, dbConn);
      && (dbConn.None? <==> |r.trace| > 0 && r.trace[0] == Lookup(connectionName))
      && (forall i :: 0 < i < |r.trace| ==> !r.trace[i].Lookup?)
  {
  }

  /** On success `Exec` ran every statement option in order on the resolved
      connection, prepared the query once on it, bound every parameter with
      its own data and type, and executed once; the statement returned is the
      one `prepare` produced. */
  lemma ExecSuccessTrace(
    registry: map<string, Connection>, connectionName: string, query: string,
    params: Option<seq<Param>>, fetchStyle: FetchStyle,
    stmtOptions: Option<seq<string>>, dbConn: Option<Connection>)
    ensures var r := Exec(registry, connectionName, query, params, fetchStyle, stmtOptions, dbConn);
      var resolved := ResolvedConnection(registry, connectionName, dbConn);
      r.result.Success? ==>
        && resolved.Some?
        && resolved.value.openError.None?
        && PrepareResult(resolved.value, query) == Success(r.result.value)
        && r.trace == (if dbConn.None? then [Lookup(connectionName)] else [])
             + (QueryEvents(resolved.value.name, Entries(stmtOptions))
                + [Prepare(resolved.value.name, query)]
                + BindEvents(Entries(params))
                + [Execute])
  {
  }

  /** An unknown connection name with no connection supplied: the lookup
      throws, and nothing else runs. */
  lemma ExecUnknownConnection(
    registry: map<string, Connection>, connectionName: string, query: string,
    params: Option<seq<Param>>, fetchStyle: FetchStyle,
    stmtOptions: Option<seq<string>>, dbConn: Option<Connection>)
    requires ResolvedConnection(registry, connectionName, dbConn).None?
    ensures Exec(registry, connectionName, query, params, fetchStyle, stmtOptions, dbConn)
      == Traced(Failure(Thrown(NotConfigured(connectionName))),
                [Lookup(connectionName), Report(InExec, query, Thrown(NotConfigured(connectionName)))])
  {
  }

  /** A connection that cannot be opened: the first `getPdo()` throws, which
      is reported, and no statement option, `prepare` or later call runs. */
  lemma ExecConnectFails(
    registry: map<string, Connection>, connectionName: string, query: string,
    params: Option<seq<Param>>, fetchStyle: FetchStyle,
    stmtOptions: Option<seq<string>>, dbConn: Option<Connection>)
    requires ResolvedConnection(registry, connectionName, dbConn).Some?
    requires ResolvedConnection(registry, connectionName, dbConn).value.openError.Some?
    ensures var e := Thrown(ResolvedConnection(registry, connectionName, dbConn).value.openError.value);
      Exec(registry, connectionName, query, params, fetchStyle, stmtOptions, dbConn)
        == Traced(Failure(e), (if dbConn.None? then [Lookup(connectionName)] else []) + [Report(InExec, query, e)])
  {
  }

  /** A statement option that throws ends `Exec` with its exception, before
      anything is prepared. */
  lemma ExecOptionFails(
    registry: map<string, Connection>, connectionName: string, query: string,
    params: Option<seq<Param>>, fetchStyle: FetchStyle,
    stmtOptions: Option<seq<string>>, dbConn: Option<Connection>)
    requires ResolvedConnection(registry, connectionName, dbConn).Some?
    requires ResolvedConnection(registry, connectionName, dbConn).value.openError.None?
    requires FirstRejected(ResolvedConnection(registry, connectionName, dbConn).value, Entries(stmtOptions))
      < |Entries(stmtOptions)|
    ensures var r := Exec(registry, connectionName, query, params, fetchStyle, stmtOptions, dbConn);
      var conn := ResolvedConnection(registry, connectionName, dbConn).value;
      var opts := Entries(stmtOptions);
      && r.result == Failure(Thrown(conn.queryErrors[opts[FirstRejected(conn, opts)]]))
      && forall i :: 0 <= i < |r.trace| ==> !r.trace[i].Prepare?
  {
  }

  /** A `prepare` that throws ends `Exec` with its exception: nothing is bound or executed. */
  lemma ExecPrepareFails(
    registry: map<string, Connection>, connectionName: string, query: string,
    params: Option<seq<Param>>, fetchStyle: FetchStyle,
    stmtOptions: Option<seq<string>>, dbConn: Option<Connection>)
    requires ResolvedConnection(registry, connectionName, dbConn).Some?
    requires ResolvedConnection(registry, connectionName, dbConn).value.openError.None?
    requires FirstRejected(ResolvedConnection(registry, connectionName, dbConn).value, Entries(stmtOptions))
      == |Entries(stmtOptions)|
    requires PrepareResult(ResolvedConnection(registry, connectionName, dbConn).value, query).Failure?
    ensures var r := Exec(registry, connectionName, query, params, fetchStyle, stmtOptions, dbConn);
      var conn := ResolvedConnection(registry, connectionName, dbConn).value;
      && r.result == Failure(Thrown(PrepareResult(conn, query).error))
      && forall i :: 0 <= i < |r.trace| ==> !r.trace[i].Bind? && !r.trace[i].Execute?
  {
  }

  /** A binding that throws ends `Exec` with its exception: the statement is not executed. */
  lemma ExecBindFails(
    registry: map<string, Connection>, connectionName: string, query: string,
    params: Option<seq<Param>>, fetchStyle: FetchStyle,
    stmtOptions: Option<seq<string>>, dbConn: Option<Connection>)
    requires ResolvedConnection(registry, connectionName, dbConn).Some?
    requires ResolvedConnection(registry, connectionName, dbConn).value.openError.None?
    requires FirstRejected(ResolvedConnection(registry, connectionName, dbConn).value, Entries(stmtOptions))
      == |Entries(stmtOptions)|
    requires PrepareResult(ResolvedConnection(registry, connectionName, dbConn).value, query).Success?
    requires FirstBadBind(PrepareResult(ResolvedConnection(registry, connectionName, dbConn).value, query).value,
                          Entries(params)) < |Entries(params)|
    ensures var r := Exec(registry, connectionName, query, params, fetchStyle, stmtOptions, dbConn);
      var st := PrepareResult(ResolvedConnection(registry, connectionName, dbConn).value, query).value;
      var ps := Entries(params);
      && r.result == Failure(Thrown(st.bindErrors[ps[FirstBadBind(st, ps)].key]))
      && forall i :: 0 <= i < |r.trace| ==> !r.trace[i].Execute?
  {
  }

  /** Once everything before it succeeded, `Exec` returns the statement
      exactly when `execute` does not throw. */
  lemma ExecExecuteOutcome(
    registry: map<string, Connection>, connectionName: string, query: string,
    params: Option<seq<Param>>, fetchStyle: FetchStyle,
    stmtOptions: Option<seq<string>>, dbConn: Option<Connection>)
    requires ResolvedConnection(registry, connectionName, dbConn).Some?
    requires ResolvedConnection(registry, connectionName, dbConn).value.openError.None?
    requires FirstRejected(ResolvedConnection(registry, connectionName, dbConn).value, Entries(stmtOptions))
      == |Entries(stmtOptions)|
    requires PrepareResult(ResolvedConnection(registry, connectionName, dbConn).value, query).Success?
    requires FirstBadBind(PrepareResult(ResolvedConnection(registry, connectionName, dbConn).value, query).value,
                          Entries(params)) == |Entries(params)|
    ensures var r := Exec(registry, connectionName, query, params, fetchStyle, stmtOptions, dbConn);
      var st := PrepareResult(ResolvedConnection(registry, connectionName, dbConn).value, query).value;
      r.result == (if st.executeError.Some? then Failure(Thrown(st.executeError.value)) else Success(st))
  {
  }

  // ---------------------------------------------------------------------
  // ExecPrefetch

  /** The do-while loop of `ExecPrefetch`: fetches the current result set,
      stores it at the next index, and moves on while `nextRowset()` succeeds
      and the new set has columns. Returns the message of the first `fetchAll`
      that throws, if any. */
  method Drain(st: Statement, style: FetchStyle) returns (r: Result<seq<seq<Row>>, string>, trace: seq<Event>)
    ensures r.Success? <==> DrainsCleanly(st)
    ensures r.Success? ==> r.value == Drained(st) && trace == DrainEvents(st, style, Span(st))
    ensures r.Failure? ==>
      && r.error == SetAt(st, FirstFailure(st)).fetch.error
      && trace == DrainEvents(st, style, FirstFailure(st)) + [FetchAll(style)]
    ensures forall i :: 0 <= i < |trace| ==> trace[i].FetchAll? || trace[i].NextRowset?
  {
    var sets: seq<seq<Row>> := [];
    trace := [];
    var more := true;
    while more
      invariant |sets| <= Span(st)
      invariant more <==> |sets| < Span(st)
      invariant forall i :: 0 <= i < |sets| ==> SetAt(st, i).fetch == Success(sets[i])
      invariant trace == DrainEvents(st, style, |sets|)
      invariant forall i :: 0 <= i < |trace| ==> trace[i].FetchAll? || trace[i].NextRowset?
      decreases Span(st) - |sets|
    {
      var p := |sets|;
      var fetched := SetAt(st, p).fetch;
      trace := trace + [FetchAll(style)];
      if fetched.Failure? {
        assert FirstFetchFailure(st, p);
        assert FirstFailure(st) == p;
        return Failure(fetched.error), trace;
      }
      sets := sets + [fetched.value];
      var advanced := HasNextRowset(st, p);
      trace := trace + [NextRowset(advanced)];
      more := advanced && SetAt(st, p + 1).columnCount != 0;
      assert more == Continues(st, p);
      assert p < Span(st) - 1 ==> Continues(st, p);
    }
    r := Success(sets);
  }

  /** The part of `ExecPrefetch` after `Exec` returned `st`: drain, collapse,
      classify, report any exception, and close the cursor in `finally`. */
  method CollectAndClassify(st: Statement, query: string, style: FetchStyle)
    returns (r: Result<Fetched, Exception>, trace: seq<Event>)
    ensures multiset(trace)[CloseCursor] == 1
    ensures |trace| > 0 && trace[|trace| - 1] == CloseCursor
    ensures DrainsCleanly(st) ==>
      var result := Collapse(Drained(st));
      var status := GetDBOErrorInfo(st.errorInfo);
      && (status.None? ==> r == Success(result))
      && (status.Some? ==> r == Failure(Sql(NewSqlException(status.value, Some(result)))))
    // a clean drain: its fetches, a report only when an exception leaves, then the release
    ensures DrainsCleanly(st) ==>
      trace == DrainEvents(st, style, Span(st))
        + (if r.Failure? then [Report(InExecPrefetch, query, r.error)] else [])
        + [CloseCursor]
    ensures !DrainsCleanly(st) ==>
      && r == Failure(Thrown(SetAt(st, FirstFailure(st)).fetch.error))
      && trace == DrainEvents(st, style, FirstFailure(st)) + [FetchAll(style)]
           + [Report(InExecPrefetch, query, r.error)] + [CloseCursor]
    ensures r.Failure? ==> Report(InExecPrefetch, query, r.error) in trace
  {
    var drained, drainTrace := Drain(st, style);
    if drained.Failure? {
      r := Failure(Thrown(drained.error));
      trace := Finish(drainTrace, query, r);
    } else {
      var result := Collapse(drained.value);
      var status := GetDBOErrorInfo(st.errorInfo);
      r := if status.Some? then Failure(Sql(NewSqlException(status.value, Some(result)))) else Success(result);
      trace := Finish(drainTrace, query, r);
      assert drainTrace == DrainEvents(st, style, Span(st));
    }
  }

  /** The events after the drain: the `catch` reports an exception that is
      about to leave, and the `finally` block releases the cursor last. */
  function Finish(drainTrace: seq<Event>, query: string, r: Result<Fetched, Exception>): (t: seq<Event>)
    requires forall i :: 0 <= i < |drainTrace| ==> drainTrace[i].FetchAll? || drainTrace[i].NextRowset?
    ensures multiset(t)[CloseCursor] == 1
    ensures |t| > 0 && t[|t| - 1] == CloseCursor
    ensures r.Failure? ==> Report(InExecPrefetch, query, r.error) in t
    ensures r.Success? ==> forall i :: 0 <= i < |t| ==> !t[i].Report?
  {
    var before := drainTrace + (if r.Failure? then [Report(InExecPrefetch, query, r.error)] else []);
    assert forall i :: 0 <= i < |before| ==> before[i] != CloseCursor;
    ClosedOnceAtEnd(before);
    before + [CloseCursor]
  }

  /** Extending a trace without a cursor release adds exactly the releases of the extension. */
  lemma ClosesAfter(a: seq<Event>, b: seq<Event>)
    requires forall i :: 0 <= i < |a| ==> a[i] != CloseCursor
    ensures multiset(a + b)[CloseCursor] == multiset(b)[CloseCursor]
    ensures CloseCursor !in b ==> multiset(a + b)[CloseCursor] == 0
    ensures |b| > 0 ==> (a + b)[|a + b| - 1] == b[|b| - 1]
  {
  }

  /** Appending the cursor release to a trace without one releases it exactly once. */
  lemma ClosedOnceAtEnd(t: seq<Event>)
    requires forall i :: 0 <= i < |t| ==> t[i] != CloseCursor
    ensures multiset(t + [CloseCursor])[CloseCursor] == 1
    ensures var closed := t + [CloseCursor]; |closed| > 0 && closed[|closed| - 1] == CloseCursor
  {
  }

  /** What a clean drain hands back: the bare rowset exactly when one set was
      fetched, and in every case the fetched sets in driver order, each with
      the rows its `fetchAll` produced. */
  lemma CollapsedDrainKeepsDriverOrder(st: Statement)
    requires DrainsCleanly(st)
    ensures Collapse(Drained(st)).Single? <==> Span(st) == 1
    ensures Collapse(Drained(st)).Single? ==> Collapse(Drained(st)).rows == SetAt(st, 0).fetch.value
    ensures |Expand(Collapse(Drained(st)))| == Span(st)
    ensures forall i :: 0 <= i < Span(st) ==> Expand(Collapse(Drained(st)))[i] == SetAt(st, i).fetch.value
  {
  }

  /** A result set without columns ends the drain, even when the driver has
      further sets behind it. */
  lemma ZeroColumnSetEndsDrain(st: Statement, i: nat)
    requires i + 1 < |st.resultSets| && st.resultSets[i + 1].columnCount == 0
    ensures Span(st) <= i + 1
  {
    assert !Continues(st, i);
  }

  /** What `ExecPrefetch` does with the outcome `ex` of `Exec`: rethrow a
      failure after reporting it, or collect, classify and release the
      statement's cursor. */
  method Prefetch(ex: Traced<Statement>, query: string, fetchStyle: FetchStyle)
    returns (r: Result<Fetched, Exception>, trace: seq<Event>)
    requires forall i :: 0 <= i < |ex.trace| ==> ex.trace[i] != CloseCursor
    // Exec threw: no statement, so no cursor to close; reported again and rethrown
    ensures ex.result.Failure? ==>
      && r == Failure(ex.result.error)
      && trace == ex.trace + [Report(InExecPrefetch, query, ex.result.error)]
    // the statement's cursor is released exactly once, after everything else
    ensures ex.trace <= trace
    ensures multiset(trace)[CloseCursor] == if ex.result.Success? then 1 else 0
    ensures ex.result.Success? ==> |trace| > 0 && trace[|trace| - 1] == CloseCursor
    // a clean drain is collapsed, then classified
    ensures ex.result.Success? && DrainsCleanly(ex.result.value) ==>
      var result := Collapse(Drained(ex.result.value));
      var status := GetDBOErrorInfo(ex.result.value.errorInfo);
      && (status.None? ==> r == Success(result))
      && (status.Some? ==> r == Failure(Sql(NewSqlException(status.value, Some(result)))))
    // after Exec: the drain's fetches, a report only on failure, then the release
    ensures ex.result.Success? && DrainsCleanly(ex.result.value) ==>
      trace == ex.trace + (DrainEvents(ex.result.value, fetchStyle, Span(ex.result.value))
        + (if r.Failure? then [Report(InExecPrefetch, query, r.error)] else [])
        + [CloseCursor])
    // a fetch that throws is rethrown, after the fetches before it
    ensures ex.result.Success? && !DrainsCleanly(ex.result.value) ==>
      var j := FirstFailure(ex.result.value);
      && r == Failure(Thrown(SetAt(ex.result.value, j).fetch.error))
      && trace == ex.trace + (DrainEvents(ex.result.value, fetchStyle, j) + [FetchAll(fetchStyle)]
           + [Report(InExecPrefetch, query, r.error)] + [CloseCursor])
    // every exception leaving ExecPrefetch was reported by it first
    ensures r.Failure? ==> Report(InExecPrefetch, query, r.error) in trace
  {
    if ex.result.Failure? {
      r := Failure(ex.result.error);
      trace := ex.trace + [Report(InExecPrefetch, query, r.error)];
      ClosesAfter(ex.trace, [Report(InExecPrefetch, query, r.error)]);
      return;
    }
    var collected;
    r, collected := CollectAndClassify(ex.result.value, query, fetchStyle);
    trace := ex.trace + collected;
    ClosesAfter(ex.trace, collected);
  }

  /** `ExecPrefetch`: runs the statement through `Exec`, collects its result
      sets, returns the bare rowset when there is exactly one, and throws a
      `SQLException` carrying that result when the driver's status is not a
      success. Whenever `Exec` handed back a statement its cursor is closed
      exactly once, as the last step; every exception is reported before it
      is rethrown unchanged. */
  method ExecPrefetch(
    registry: map<string, Connection>, connectionName: string, query: string,
    params: Option<seq<Param>> := None, fetchStyle: FetchStyle := FetchBoth,
    stmtOptions: Option<seq<string>> := None, dbConn: Option<Connection> := None)
    returns (r: Result<Fetched, Exception>, trace: seq<Event>)
    // Exec threw: no statement, so no cursor to close; reported again and rethrown
    ensures var ex := Exec(registry, connectionName, query, params, fetchStyle, stmtOptions, dbConn);
      ex.result.Failure? ==>
        && r == Failure(ex.result.error)
        && trace == ex.trace + [Report(InExecPrefetch, query, ex.result.error)]
    // the statement's cursor is released exactly once, after everything else
    ensures Exec(registry, connectionName, query, params, fetchStyle, stmtOptions, dbConn).trace <= trace
    ensures multiset(trace)[CloseCursor]
      == if Exec(registry, connectionName, query, params, fetchStyle, stmtOptions, dbConn).result.Success? then 1 else 0
    ensures Exec(registry, connectionName, query, params, fetchStyle, stmtOptions, dbConn).result.Success? ==>
      |trace| > 0 && trace[|trace| - 1] == CloseCursor
    // a clean drain is collapsed, then classified
    ensures var ex := Exec(registry, connectionName, query, params, fetchStyle, stmtOptions, dbConn);
      ex.result.Success? && DrainsCleanly(ex.result.value) ==>
        var result := Collapse(Drained(ex.result.value));
        var status := GetDBOErrorInfo(ex.result.value.errorInfo);
        && (status.None? ==> r == Success(result))
        && (status.Some? ==> r == Failure(Sql(NewSqlException(status.value, Some(result)))))
    // after Exec: the drain's fetches, a report only on failure, then the release
    ensures var ex := Exec(registry, connectionName, query, params, fetchStyle, stmtOptions, dbConn);
      ex.result.Success? && DrainsCleanly(ex.result.value) ==>
        trace == ex.trace + (DrainEvents(ex.result.value, fetchStyle, Span(ex.result.value))
          + (if r.Failure? then [Report(InExecPrefetch, query, r.error)] else [])
          + [CloseCursor])
    // a fetch that throws is rethrown, after the fetches before it
    ensures var ex := Exec(registry, connectionName, query, params, fetchStyle, stmtOptions, dbConn);
      ex.result.Success? && !DrainsCleanly(ex.result.value) ==>
        var j := FirstFailure(ex.result.value);
        && r == Failure(Thrown(SetAt(ex.result.value, j).fetch.error))
        && trace == ex.trace + (DrainEvents(ex.result.value, fetchStyle, j) + [FetchAll(fetchStyle)]
             + [Report(InExecPrefetch, query, r.error)] + [CloseCursor])
    // every exception leaving ExecPrefetch was reported by it first
    ensures r.Failure? ==> Report(InExecPrefetch, query, r.error) in trace
  {
    var ex := Exec(registry, connectionName, query, params, fetchStyle, stmtOptions, dbConn);
    r, trace := Prefetch(ex, query, fetchStyle);
  }
}
