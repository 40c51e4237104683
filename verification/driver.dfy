/** A deterministic stand-in for the PDO driver layer underneath SQLUtils.

    A connection knows whether it can be opened, which raw statements fail when run directly and what
    `prepare` yields for each query text; a prepared statement knows which
    parameter bindings fail, whether `execute` fails, the result sets it
    exposes in driver order, and the error-info triple it reports afterwards.
    Row contents and the row shape a fetch style selects stay opaque. */
module Driver {
  import opened Wrappers

  /** One fetched row; its layout under a fetch style is not modelled. */
  datatype Row = Row(cells: seq<string>)

  /** The PDO fetch styles callers pass through; `FetchBoth` is the default. */
  datatype FetchStyle = FetchAssoc | FetchNum | FetchBoth | FetchObj

  /** The declared driver type of a bound value (`PDO::PARAM_*`). */
  datatype ParamType = ParamNull | ParamInt | ParamStr | ParamLob | ParamBool

  /** A value a caller binds; it reaches the driver as given. */
  datatype Value = NullValue | StrValue(s: string) | IntValue(i: int) | BoolValue(b: bool)

  /** A placeholder: positional (1-based in PDO) or named (`:Email`). */
  datatype BindKey = Position(index: nat) | Name(name: string)

  /** One entry of the `$params` array: its key, its `data` and its `type`. */
  datatype Param = Param(key: BindKey, data: Value, paramType: ParamType)

  /** The `errorInfo()` triple: SQLSTATE, driver-specific code, driver message. */
  datatype ErrorInfo = ErrorInfo(sqlState: string, driverCode: int, message: string)

  /** One result set as the driver exposes it: its column count and what
      `fetchAll` yields on it (the rows, or the message of the exception it throws). */
  datatype ResultSet = ResultSet(columnCount: int, fetch: Result<seq<Row>, string>)

  /** A prepared statement of the fake driver. `errorInfo` is `None` when the
      driver reports no triple at all (null or an empty array). */
  datatype Statement = Statement(
    bindErrors: map<BindKey, string>,
    executeError: Option<string>,
    resultSets: seq<ResultSet>,
    errorInfo: Option<ErrorInfo>)

  /** A connection: `openError` is the message of the exception raised when
      the database cannot be opened (by the first `getPdo()`, since the
      connection opens lazily), `None` when it opens; `queryErrors` maps each
      raw SQL text whose direct `query` throws to the exception message;
      `prepared` says what `prepare` yields. */
  datatype Connection = Connection(
    name: string,
    openError: Option<string>,
    queryErrors: map<string, string>,
    prepared: map<string, Result<Statement, string>>)

  /** Message of the exception `prepare` throws for a text the fake does not know. */
  const UnknownStatement := "SQLSTATE[42000]: Syntax error or access violation"

  /** What `prepare(query)` yields on `conn`. */
  function PrepareResult(conn: Connection, query: string): Result<Statement, string>
  {
    if query in conn.prepared then conn.prepared[query] else Failure(UnknownStatement)
  }

  /** The result set active at cursor position `p`; past the last one the
      statement behaves as a set with no columns and no rows. */
  function SetAt(st: Statement, p: nat): ResultSet
  {
    if p < |st.resultSets| then st.resultSets[p] else ResultSet(0, Success([]))
  }

  /** What `nextRowset()` answers when the cursor is at position `p`. */
  predicate HasNextRowset(st: Statement, p: nat)
  {
    p + 1 < |st.resultSets|
  }

  /** The do-while condition `nextRowset() && columnCount()` evaluated at position `p`. */
  predicate Continues(st: Statement, p: nat)
  {
    HasNextRowset(st, p) && SetAt(st, p + 1).columnCount != 0
  }

  /** Number of result sets a drain starting at position `p` fetches when no
      fetch throws: it always fetches the set at `p`, and keeps going exactly
      while the loop condition holds. */
  function SpanFrom(st: Statement, p: nat): (n: nat)
    ensures p < n
    ensures forall i :: p <= i < n - 1 ==> Continues(st, i)
    ensures !Continues(st, n - 1)
    ensures n <= |st.resultSets| || n == p + 1
    decreases |st.resultSets| - p
  {
    if Continues(st, p) then SpanFrom(st, p + 1) else p + 1
  }

  /** Number of result sets a full drain of `st` fetches. */
  function Span(st: Statement): (n: nat)
    ensures 1 <= n
  {
    SpanFrom(st, 0)
  }

  /** True when no `fetchAll` among the sets a drain reaches throws. */
  predicate DrainsCleanly(st: Statement)
  {
    forall i :: 0 <= i < Span(st) ==> SetAt(st, i).fetch.Success?
  }

  /** The rowsets a clean drain collects, in driver order. */
  function Drained(st: Statement): (sets: seq<seq<Row>>)
    requires DrainsCleanly(st)
    ensures |sets| == Span(st)
  {
    seq(Span(st), i requires 0 <= i < Span(st) => SetAt(st, i).fetch.value)
  }
}
