/**
 * Values of the external connector framework, reduced to what the harness looks at.
 * Fields that Java allows to be null are `Option`s.
 */
module Framework {
  import opened Wrappers

  datatype EntryType = FileType | DirType

  /** A directory entry: its type and its path (possibly null). */
  datatype Entry = Entry(kind: EntryType, path: Option<string>)

  /**
   * The stream behind a non-file transfer: a piped input stream (outgoing side),
   * a piped output stream (incoming side), or any other stream.
   */
  datatype Stream =
    | PipedInput(uriResourcePath: Option<string>)
    | PipedOutput(uriResourcePath: Option<string>)
    | OtherStream

  /** The data source of a put: a file with a relative path, or a named stream. */
  datatype Outgoing = Outgoing(isFile: bool, relative: Option<string>, stream: Stream, name: Option<string>)

  /** The data sink of a get: a file with a relative path, or a named stream. */
  datatype Incoming = Incoming(isFile: bool, relative: Option<string>, stream: Stream, name: Option<string>)

  /** Result status of a command; `Other` covers the values the harness never tests for. */
  datatype Status = Success | Error | Exception | Other(name: string)
  {
    /** An `Other` stands for a constant distinct from the three the harness names. */
    predicate Valid()
    {
      Other? ==> name != "Success" && name != "Error" && name != "Exception"
    }
  }

  /** `Status.name()`: each of the three named constants prints its own name. */
  function StatusName(s: Status): (r: string)
    ensures s.Valid() ==> (r == "Success" <==> s == Success)
    ensures s.Valid() ==> (r == "Error" <==> s == Error)
    ensures s.Valid() ==> (r == "Exception" <==> s == Exception)
  {
    match s
    case Success => "Success"
    case Error => "Error"
    case Exception => "Exception"
    case Other(n) => n
  }

  /**
   * A throwable: its message (possibly null), its `toString` rendering, whether it is an
   * `Exception` (rather than another `Throwable`), and the lines its stack trace prints.
   */
  datatype Throwable = Throwable(message: Option<string>, text: string, isException: bool, stackTrace: seq<string>)

  /** Distinct valid statuses print distinct names, as distinct enum constants do. */
  lemma StatusNameInjective(s: Status, t: Status)
    requires s.Valid() && t.Valid()
    requires StatusName(s) == StatusName(t)
    ensures s == t
  {
  }

  /** The framework's command result, as far as the logger reads it. */
  datatype CommandResult = CommandResult(
    status: Status,
    message: Option<string>,
    exception: Option<Throwable>,
    dirEntries: Option<seq<Entry>>,
    dirCurrent: Option<string>)
  {
    predicate IsSuccess() { status == Success }
  }

  /** `new ConnectorCommandResult(status, message)`: nothing else is filled in. */
  function NewCommandResult(status: Status, message: Option<string>): (r: CommandResult)
    ensures r.status == status && r.message == message
    ensures r.exception.None? && r.dirEntries.None? && r.dirCurrent.None?
  {
    CommandResult(status, message, None, None, None)
  }
}
