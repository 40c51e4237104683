# SQLUtils, modelled in Dafny

This project models the SQL utility layer of the LESK `SQLUtils` module
(`Utils/SQLUtils.php`) and the structured `SQLException` it raises
(`Exceptions/SQLException.php`):

- **Exec** obtains a connection. It uses the one supplied, or else looks one
  up by name. It runs the statement options in order, prepares the query once,
  binds every parameter with its own `data` and `type`, and executes once. Any
  exception is logged, reported and rethrown unchanged.
- **ExecPrefetch** calls `Exec` and drains the result sets in a do-while loop.
  It continues while `nextRowset()` succeeds and the new set has columns. It
  returns the bare rowset when exactly one set was fetched. When the driver's
  error-info triple is not a success, it throws a `SQLException` carrying the
  triple and the collapsed result. Its `finally` block closes the cursor
  whenever `Exec` handed back a statement.
- **GetDBOErrorInfo** classifies the triple. It returns null when the driver
  reports none, or when the SQLSTATE is `"00000"` and the driver code is `0`.
  Otherwise it returns the triple unchanged.
- **FlattenArrayOfMessages** joins a nested message array into one string,
  exactly as the PHP loop does. The deprecated `GetErrorMessages` calls it and
  discards the result.
- **SQLException** stores the triple and the data. It builds the message
  `SQL exception occurred with message "<element 2>" and SQLState "<element 0>".`

The database is a deterministic fake driver (`driver.dfy`):

- A `Connection` knows whether the database can be opened (`openError`), which
  raw statements throw, and what `prepare` yields for each query text. The
  connection opens lazily, so an open failure is raised by the first
  `getPdo()` (line 121 or 125), before any statement option or `prepare`
  runs.
- A prepared `Statement` knows which bindings throw and whether `execute`
  throws. It also holds its result sets in driver order, each with a column
  count and what `fetchAll` yields on it, plus the error-info triple it
  reports afterwards.
- Past its last result set, a statement behaves as a set with no columns
  whose `fetchAll` returns no rows. So a statement with no result sets at all
  drains to one empty rowset, and `ExecPrefetch` returns an empty result.
  Drivers that throw from `fetchAll()` on a statement without a result set
  (pdo_mysql, pdo_sqlsrv) are expressed by giving the statement one set whose
  fetch fails, `[ResultSet(0, Failure(…))]`. The empty default does not pick
  that behaviour.

The calls `DB::connection`, `query`, `prepare`, `bindValue`, `execute`,
`fetchAll`, `nextRowset` and `closeCursor` are recorded as events of a trace:
`Lookup`, `Query`, `Prepare`, `Bind`, `Execute`, `FetchAll`, `NextRowset`,
`CloseCursor`. So is every catch that logs and reports (`Report`). The
properties are stated over the returned outcome and this trace.

Files: `wrappers.dfy` (Option, Result), `driver.dfy` (module `Driver`),
`rowsets.dfy` (module `Rowsets`), `sql_exception.dfy` (module `Exceptions`),
`sql_utils.dfy` (module `SqlUtils`) and `message_flattener.dfy` (modules
`MessageFlattener` and `IntendedFlattener`).

Where the documentation and the code disagree, this model follows the code:

- The docblock of `FlattenArrayOfMessages` (`Utils/SQLUtils.php:164-170`)
  promises the messages "with each message separated by the separator
  provided", so `["a", ["b","c"]]` with `","` should give `"a,b,c"`. The code
  produces `"ab,c"`, because line 179 appends a nested array's result with no
  separator.
- The code starts from `$msg = null` (line 175), and every pass of the loop
  applies `.=` to it (lines 179 and 182). PHP's `.=` turns a null left-hand
  side into a string, even when the right-hand side is null or `""`. So the
  result stays null only when the loop body never runs, that is when the
  array is absent or empty (line 176). An array whose entries contribute no
  text (`[[]]`, `[""]`) yields `""`, not null.

## Model

| member | source | states |
|---|---|---|
| SqlUtils.GetDBOErrorInfo | Utils/SQLUtils.php:206-226 | null exactly when the driver reports no triple, or SQLSTATE is "00000" and the driver code is 0; any other triple is returned unchanged |
| SqlUtils.Connect | Utils/SQLUtils.php:114-116 | a supplied connection is used without a lookup; otherwise one lookup by name, which succeeds exactly when the name is configured; opening the database is the separate step stated by ExecConnectFails |
| SqlUtils.FirstRejected | Utils/SQLUtils.php:119-123 | the index of the first statement option whose execution throws: every earlier option runs cleanly |
| SqlUtils.RunOptions | Utils/SQLUtils.php:119-123 | options run in order on the one connection; the first that throws ends the loop with its exception, after exactly the query events up to and including it |
| SqlUtils.FirstBadBind | Utils/SQLUtils.php:129-133 | the index of the first parameter whose binding throws: every earlier binding succeeds |
| SqlUtils.BindAll | Utils/SQLUtils.php:129-133 | parameters are bound in order, each with its own key, data and type; the first binding that throws ends the loop with its exception |
| SqlUtils.BindAndExecute | Utils/SQLUtils.php:129-135 | only statement calls are made; on success every parameter was bound in order with its own data and type, then the statement executed once and is returned |
| SqlUtils.OnConnection | Utils/SQLUtils.php:119-137 | only calls on the held connection and its statement are made; a connection that cannot be opened fails before any of them; on success the connection opened, the options ran in order, then one prepare, the bindings and one execute, and the statement is the one prepare produced |
| SqlUtils.ExecSteps | Utils/SQLUtils.php:112-137 | the lookup by name comes first and only when no connection was supplied; every later step is a call on the connection or its statement |
| SqlUtils.Exec | Utils/SQLUtils.php:108-146 | a failure is reported last and rethrown as the same exception; Exec never closes a cursor |
| SqlUtils.ExecLooksUpOnlyWithoutConnection | Utils/SQLUtils.php:114-116 | a connection is looked up by name exactly when none was supplied, and only as the first step |
| SqlUtils.ExecSuccessTrace | Utils/SQLUtils.php:114-137 | on success the resolved connection opened, and Exec made: the lookup if any, every option in order, one prepare, every binding in order, one execute, all on the one resolved connection; the returned statement is the one prepare produced |
| SqlUtils.ExecConnectFails | Utils/SQLUtils.php:114-143 | a resolved connection whose database cannot be opened throws from the first getPdo(): the exception is reported and rethrown, and no statement option, prepare, binding or execute runs |
| SqlUtils.ExecUnknownConnection | Utils/SQLUtils.php:114-143 | an unconfigured name with no connection supplied throws from the lookup, which is reported; nothing else runs |
| SqlUtils.ExecOptionFails | Utils/SQLUtils.php:119-143 | on a connection that opens, a throwing statement option ends Exec with that option's exception, and the query is never prepared |
| SqlUtils.ExecPrepareFails | Utils/SQLUtils.php:125-143 | on a connection that opens, once every option ran cleanly, a throwing prepare ends Exec with its exception; nothing is bound or executed |
| SqlUtils.ExecBindFails | Utils/SQLUtils.php:129-143 | on a connection that opens, after clean options and prepare, the first throwing binding ends Exec with its exception; the statement is not executed |
| SqlUtils.ExecExecuteOutcome | Utils/SQLUtils.php:135-143 | once the connection opened and all earlier steps succeeded, Exec returns the statement exactly when execute does not throw, and otherwise throws execute's exception |
| Driver.SpanFrom | Utils/SQLUtils.php:56-61 | the drain always fetches the current set, and fetches another exactly while nextRowset() succeeds and the new set has a non-zero column count |
| SqlUtils.ZeroColumnSetEndsDrain | Utils/SQLUtils.php:61 | a result set with no columns ends the drain even when the driver has further sets |
| SqlUtils.Drain | Utils/SQLUtils.php:55-61 | without a throwing fetch, the rowsets are exactly those of the sets the loop reaches, in driver order at indices 0..n-1; otherwise the first throwing fetch ends it with that fetch's exception |
| Rowsets.Collapse | Utils/SQLUtils.php:63-66 | the result is the bare rowset exactly when one set was collected; two or more sets are returned whole |
| Rowsets.ExpandCollapse | Utils/SQLUtils.php:63-66 | collapsing loses nothing: the collected sets are recovered from the collapsed result |
| SqlUtils.CollapsedDrainKeepsDriverOrder | Utils/SQLUtils.php:56-66 | the returned value is the bare first rowset exactly when one set was fetched, and always lists the fetched sets in driver order with their rows |
| SqlUtils.FirstFailure | Utils/SQLUtils.php:56-61 | when the drain does not run cleanly, the set whose fetchAll throws first: the drain reaches it and every set before it fetched cleanly |
| SqlUtils.CollectAndClassify | Utils/SQLUtils.php:55-86 | after a clean drain: success status returns the collapsed result; any other status throws a SQLException carrying the triple and that result; a throwing fetch is rethrown; the events are exactly the drain's fetchAll/nextRowset calls up to the end of the loop or the throwing fetch, then a report only when an exception leaves, then the cursor release, once and last |
| SqlUtils.Finish | Utils/SQLUtils.php:76-85 | after the drain, the catch reports an exception exactly when one leaves (no report on success), and the finally block releases the cursor exactly once, as the last event |
| SqlUtils.Prefetch | Utils/SQLUtils.php:52-88 | given Exec's outcome: a thrown exception is reported again and rethrown with no release; a statement is drained, classified and released exactly as stated for CollectAndClassify, after Exec's events |
| SqlUtils.ExecPrefetch | Utils/SQLUtils.php:47-88 | if Exec throws, the same exception is reported again and rethrown, and no cursor is closed; if Exec returns a statement, its cursor is closed exactly once, after everything else; after Exec's events come exactly the events stated for CollectAndClassify (the fetches, a report only on failure, the release), so nothing else is called on the statement; the outcome is classified as above |
| Exceptions.NewSqlException | Exceptions/SQLException.php:32-38 | getErrorInfo() and getData() return exactly what was passed; code and previous exception are passed through; the message is built from the triple |
| Exceptions.NewSqlExceptionDefaults | Exceptions/SQLException.php:32-37 | data defaults to null, code to 0, the previous exception to null |
| Exceptions.ParseExceptionMessage | Exceptions/SQLException.php:37 | for a five-character SQLSTATE, the driver message and the SQLSTATE are read back out of the message |
| Exceptions.ParsedMessageRebuilds | Exceptions/SQLException.php:37 | every message that parses is the message of the parsed triple, whatever its driver code |
| Exceptions.ExceptionMessageDeterminedBy | Exceptions/SQLException.php:37 | two triples give the same message exactly when they agree on SQLSTATE and driver message; the driver code never shows |
| MessageFlattener.FlattenArrayOfMessages | Utils/SQLUtils.php:172-187 | null exactly when the message array is absent or empty |
| MessageFlattener.FlattenNodes | Utils/SQLUtils.php:175-184 | the accumulator stays null exactly while no entry has been visited |
| MessageFlattener.Append | Utils/SQLUtils.php:178-183 | every iteration leaves a string (never null) in the accumulator |
| MessageFlattener.FlattenWithoutSeparator | Utils/SQLUtils.php:177-183 | with an empty separator the result is every leaf message concatenated in order, whatever the nesting |
| MessageFlattener.FlattenFlat | Utils/SQLUtils.php:177-183 | on a flat array whose first message is truthy, the result is the messages joined by the separator |
| MessageFlattener.GroupAddsNoSeparator | Utils/SQLUtils.php:179 | a nested array's flattening is concatenated onto the accumulator with no separator |
| MessageFlattener.GetErrorMessages | Utils/SQLUtils.php:158-162 | the deprecated wrapper always yields null |
| IntendedFlattener.FlattenIntended | Utils/SQLUtils.php:164-170 | the documented behaviour: null when there is no message, otherwise every leaf message joined by the separator |
| IntendedFlattener.NestedExampleAsWritten | Utils/SQLUtils.php:177-183 | as written, ["a", ["b","c"]] with "," gives "ab,c" |
| IntendedFlattener.NestedExampleIntended | Utils/SQLUtils.php:164-170 | the documented behaviour gives "a,b,c" for the same input |
| IntendedFlattener.NestedArrayLosesSeparator | Utils/SQLUtils.php:179 | as written, ["a", ["b","c"]] with "," gives "ab,c" where the documented behaviour gives "a,b,c" |
| IntendedFlattener.ZeroMessageLosesSeparator | Utils/SQLUtils.php:182 | as written, ["0","b"] gives "0b" where the documented behaviour gives "0 \| b" |

## Findings

| source | as written | input that shows it | evidently intended | confidence | as-written member | corrected member |
|---|---|---|---|---|---|---|
| Utils/SQLUtils.php:179 | a nested array's flattening is appended to the accumulator with no separator | `[Leaf("a"), Group([Leaf("b"), Leaf("c")])]` with `","` gives `"ab,c"` | every message separated by the separator, as the docblock at lines 164-170 says: `"a,b,c"` | high; not executed | MessageFlattener.FlattenArrayOfMessages, shown by IntendedFlattener.NestedArrayLosesSeparator | IntendedFlattener.FlattenIntended |
| Utils/SQLUtils.php:182 | the separator is added only when the accumulated string is truthy, and `"0"` is falsy in PHP | `[Leaf("0"), Leaf("b")]` with `" \| "` gives `"0b"` | `"0 \| b"` | medium; not executed | MessageFlattener.FlattenArrayOfMessages, shown by IntendedFlattener.ZeroMessageLosesSeparator | IntendedFlattener.FlattenIntended |

`IntendedFlattener.FlattenIntended` is proved to equal the leaf messages
joined by the separator, for every nesting. `FlattenArrayOfMessages` itself
keeps the behaviour as written, since that is what callers of the module get.

## Left out

- Real PDO and Laravel behaviour (`DB::connection`, `getPdo`, driver error
  modes) is replaced by the fake driver above. Row contents and the row shape
  a fetch style selects are opaque. `fetchStyle` is passed through and
  recorded on `FetchAll` events only.
- `Log::error` and `Handler::report` are side-effect sinks. Each catch that
  logs twice and reports once is recorded as a single `Report` event, naming
  the method, the statement text and the exception.
- The calls `columnCount()` (line 61), `errorInfo()` (line 211) and
  `getPdo()` (lines 121, 125) leave no event in the trace. `columnCount()`
  and `errorInfo()` read state the fake driver holds (a set's column count,
  the statement's triple). `getPdo()` hands back the connection. Its first
  call opens the database, and a failure to open is modelled (`openError`)
  by the exception alone, with no event of its own.
- Exceptions from `nextRowset()`, `columnCount()`, `errorInfo()` and
  `closeCursor()` are not modelled. During the drain only `fetchAll` throws.
- A thrown framework or driver exception is modelled by its message only. Its
  class and code are not modelled.
- PHP loose comparison in `'00000' == $sqlState` and `0 == $sqlDriverCode` is
  modelled as plain string and integer equality. So a null driver code, which
  PHP treats as equal to 0, is outside the model: the driver code is an integer.
- `Str::isNullOrEmptyString` is not part of this model. A missing or empty
  error-info array is modelled as the driver reporting no triple. Arrays with
  fewer than three elements are not modelled.
- PHP cannot tell a bare rowset from an array of rowsets. The model keeps the
  two apart (`Single`, `Multi`) so that the collapse can be stated.
- Message arrays hold string leaves only. PHP's conversion of integer,
  boolean or null entries to strings is not modelled.
- The argument of `FlattenArrayOfMessages` is an array of messages or absent.
  A non-array argument, such as a string, is outside the model: `count()`
  then warns under PHP 7, and under PHP 8 it throws a `TypeError`, which
  `catch (Exception $e)` does not catch.
- The `catch` block of `FlattenArrayOfMessages` (lines 188-191) cannot be
  reached by the pure model, and is left out.
- The `trigger_error` deprecation notice of `GetErrorMessages` is left out.
- `$params` is a PHP array, so its keys are unique. The model takes a
  sequence of parameters and binds each entry in turn. A null `$params` or
  `$stmtOptions` behaves as an empty one, as the `isset(…) and count(…) > 0`
  guards make it.
- The service provider (`Providers/SQLUtilsServiceProvider.php`) is framework
  bootstrap and is not part of this model.
