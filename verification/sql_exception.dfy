/** The exceptions the SQL utilities let through, including the structured
    `SQLException` raised when a statement ran but the driver flagged an error. */
module Exceptions {
  import opened Wrappers
  import opened Driver
  import opened Rowsets

  /** An exception reaching a caller: one raised by the framework or the
      driver (only its message is modelled), or a structured `SQLException`. */
  datatype Exception = Thrown(message: string) | Sql(sql: SqlException)
  {
    /** `getMessage()` */
    function GetMessage(): string
    {
      match this
      case Thrown(m) => m
      case Sql(e) => e.message
    }
  }

  /** `SQLException`: the driver's error-info triple, the data the statement
      had returned, and what the parent `\Exception` keeps (message, code,
      previous exception). Build it with `NewSqlException`. */
  datatype SqlException = SqlException(
    errorInfo: ErrorInfo,
    data: Option<Fetched>,
    message: string,
    code: int,
    previous: Option<Exception>)
  {
    /** `getErrorInfo()` */
    function GetErrorInfo(): ErrorInfo
    {
      errorInfo
    }

    /** `getData()` */
    function GetData(): Option<Fetched>
    {
      data
    }
  }

  const MessageHead := "SQL exception occurred with message \""
  const MessageMiddle := "\" and SQLState \""
  const MessageTail := "\"."

  /** Length of a SQLSTATE code as the ANSI SQL standard defines it. */
  const SqlStateLength := 5

  /** The message the constructor hands to the parent exception: the driver
      message (element 2) and the SQLSTATE (element 0), never the driver code. */
  function ExceptionMessage(info: ErrorInfo): string
  {
    MessageHead + info.message + MessageMiddle + info.sqlState + MessageTail
  }

  /** The constructor, with the source's defaults: no data, code 0, no previous exception. */
  function NewSqlException(
    errorInfo: ErrorInfo,
    data: Option<Fetched> := None,
    code: int := 0,
    previous: Option<Exception> := None): (e: SqlException)
    ensures e.GetErrorInfo() == errorInfo
    ensures e.GetData() == data
    ensures e.code == code && e.previous == previous
    ensures e.message == ExceptionMessage(errorInfo)
  {
    SqlException(errorInfo, data, ExceptionMessage(errorInfo), code, previous)
  }

  /** Constructed with only the triple, the exception carries no data, code 0
      and no previous exception. */
  lemma NewSqlExceptionDefaults(info: ErrorInfo)
    ensures NewSqlException(info).GetData() == None
    ensures NewSqlException(info).code == 0
    ensures NewSqlException(info).previous == None
  {
  }

  /** Reads the driver message and the SQLSTATE back out of an exception
      message, taking the SQLSTATE to be the five characters before the tail. */
  function ParseMessage(s: string): Option<(string, string)>
  {
    var n := |s|;
    if n < |MessageHead| + |MessageMiddle| + SqlStateLength + |MessageTail| then None
    else
      var stateStart := n - |MessageTail| - SqlStateLength;
      var messageEnd := stateStart - |MessageMiddle|;
      if s[..|MessageHead|] == MessageHead
         && s[messageEnd..stateStart] == MessageMiddle
         && s[n - |MessageTail|..] == MessageTail
      then Some((s[|MessageHead|..messageEnd], s[stateStart..n - |MessageTail|]))
      else None
  }

  /** For a well-formed SQLSTATE the message keeps both the driver message and
      the SQLSTATE recoverably. */
  lemma ParseExceptionMessage(info: ErrorInfo)
    requires |info.sqlState| == SqlStateLength
    ensures ParseMessage(ExceptionMessage(info)) == Some((info.message, info.sqlState))
  {
    var s := ExceptionMessage(info);
    var h := |MessageHead|;
    var m := |info.message|;
    var mid := |MessageMiddle|;
    assert s[..h] == MessageHead;
    assert s[h..h + m] == info.message;
    assert s[h + m..h + m + mid] == MessageMiddle;
    assert s[h + m + mid..h + m + mid + SqlStateLength] == info.sqlState;
    assert s[h + m + mid + SqlStateLength..] == MessageTail;
  }

  /** Every message that parses is the message of the triple it parses to,
      whatever that triple's driver code. */
  lemma ParsedMessageRebuilds(s: string, code: int)
    requires ParseMessage(s).Some?
    ensures ExceptionMessage(ErrorInfo(ParseMessage(s).value.1, code, ParseMessage(s).value.0)) == s
  {
  }

  /** Two triples with well-formed SQLSTATEs give the same message exactly
      when they agree on the SQLSTATE and the driver message; the driver
      code never shows. */
  lemma ExceptionMessageDeterminedBy(a: ErrorInfo, b: ErrorInfo)
    requires |a.sqlState| == SqlStateLength && |b.sqlState| == SqlStateLength
    ensures ExceptionMessage(a) == ExceptionMessage(b)
      <==> a.message == b.message && a.sqlState == b.sqlState
  {
    if ExceptionMessage(a) == ExceptionMessage(b) {
      ParseExceptionMessage(a);
      ParseExceptionMessage(b);
    }
  }
}
