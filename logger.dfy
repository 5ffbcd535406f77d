/**
 * The test logger: it turns the connector's structured logging callbacks into printable
 * lines. The `PrintStream` it writes to is the sequence of lines printed so far.
 */
module Logger {
  import opened Wrappers
  import opened Text
  import opened Framework

  // ---------------------------------------------------------------------------
  // The callback parameter objects of the framework
  // ---------------------------------------------------------------------------

  /** A response event: the line as received, a status, a message, and an optional code and text. */
  datatype ResponseParms = ResponseParms(
    responseLine: Option<string>,
    status: Option<Status>,
    statusMessage: Option<string>,
    responseCode: Option<int>,
    responseText: Option<string>)

  /** A detail event, flagged as an error, a warning, or neither. */
  datatype DetailParms = DetailParms(isError: bool, isWarning: bool, message: Option<string>, level: int)

  /** A file event: the file being retrieved into `incoming` or stored from `outgoing`. */
  datatype FileParms = FileParms(
    incoming: Option<Incoming>,
    outgoing: Option<Outgoing>,
    entry: Option<Entry>,
    fileNum: int,
    fileCount: int)

  /** The end of a command: the result the client produced (if any) and what to report. */
  datatype CommandResultParms = CommandResultParms(
    commandResult: Option<CommandResult>,
    status: Status,
    statusMessage: Option<string>,
    fileSize: int,
    lastModified: int,
    copyPath: Option<string>,
    deleteFailed: bool)

  datatype RequestParms = RequestParms(requestText: Option<string>, requestType: Option<string>)

  datatype ThrowableParms = ThrowableParms(throwable: Throwable)

  // ---------------------------------------------------------------------------
  // Padding helpers: a prefix and a value, or nothing
  // ---------------------------------------------------------------------------

  /** `pad(prefix, Optional<String>)`: present values are printed even when empty. */
  function PadOptional(prefix: string, s: Option<string>): (r: string)
    ensures s.Some? ==> r == prefix + s.value
    ensures s.None? ==> r == ""
  {
    if s.Some? then prefix + s.value else ""
  }

  /** `pad(prefix, String)`: a null and an empty string both print nothing. */
  function PadString(prefix: string, s: Option<string>): (r: string)
    ensures r != "" <==> s.Some? && s.value != ""
    ensures r != "" ==> r == prefix + s.value
  {
    if s.Some? && s.value != "" then prefix + s.value else ""
  }

  /** `pad(prefix, long)`: only a positive number is printed, in decimal. */
  function PadNumber(prefix: string, value: int): (r: string)
    ensures value <= 0 ==> r == ""
    ensures value > 0 ==> StartsWith(r, prefix) && IsDigits(r[|prefix|..])
  {
    if value > 0 then prefix + NatText(value) else ""
  }

  /** `padDate(prefix, long)`: a positive date, rendered by the external `dateText`. */
  function PadDate(prefix: string, date: int, dateText: int -> string): (r: string)
    ensures date <= 0 ==> r == ""
    ensures date > 0 ==> r == prefix + dateText(date)
  {
    if date > 0 then prefix + dateText(date) else ""
  }

  /** `pad(Entry)`: a space and the entry's path in double quotes, or nothing for no entry. */
  function PadEntry(e: Option<Entry>): (r: string)
    ensures e.None? <==> r == ""
    ensures e.Some? ==> r == " \"" + JavaStr(e.value.path) + "\""
  {
    if e.Some? then " \"" + JavaStr(e.value.path) + "\"" else ""
  }

  /** The number `PadNumber` prints reads back as the number it was given. */
  lemma PadNumberRoundTrip(prefix: string, value: int)
    requires value > 0
    ensures IsDigits(PadNumber(prefix, value)[|prefix|..])
    ensures DecimalValue(PadNumber(prefix, value)[|prefix|..]) == value
    ensures |PadNumber(prefix, value)| > |prefix| && PadNumber(prefix, value)[|prefix|] != '0'
  {
    assert PadNumber(prefix, value)[|prefix|..] == NatText(value);
    NatTextRoundTrip(value);
  }

  // ---------------------------------------------------------------------------
  // Naming the two ends of a transfer
  // ---------------------------------------------------------------------------

  /** The label of an unnamed or named stream: "*stream*", then "/name" when there is a name. */
  function StreamLabel(name: Option<string>): (r: string)
    ensures StartsWith(r, "*stream*")
    ensures |r| == 8 <==> name.None? || name.value == ""
    ensures name.Some? && name.value != "" ==> r == "*stream*/" + name.value
    ensures !(name.Some? && name.value != "") ==> r == "*stream*"
  {
    "*stream*" + PadString("/", name)
  }

  /**
   * `sourceName`: a file's relative path; otherwise the URI path of a piped input stream
   * when it has one; otherwise the stream label. Only a file can give no name (null).
   */
  function SourceName(o: Outgoing): (r: Option<string>)
    ensures o.isFile ==> r == o.relative
    ensures !o.isFile ==> r.Some?
    ensures !o.isFile && o.stream.PipedInput? && o.stream.uriResourcePath.Some? ==> r == o.stream.uriResourcePath
    ensures !o.isFile && !(o.stream.PipedInput? && o.stream.uriResourcePath.Some?) ==> r == Some(StreamLabel(o.name))
  {
    if o.isFile then o.relative
    else if o.stream.PipedInput? && o.stream.uriResourcePath.Some? then o.stream.uriResourcePath
    else Some(StreamLabel(o.name))
  }

  /** `destName`: as `SourceName`, for the incoming side and a piped output stream. */
  function DestName(i: Incoming): (r: Option<string>)
    ensures i.isFile ==> r == i.relative
    ensures !i.isFile ==> r.Some?
    ensures !i.isFile && i.stream.PipedOutput? && i.stream.uriResourcePath.Some? ==> r == i.stream.uriResourcePath
    ensures !i.isFile && !(i.stream.PipedOutput? && i.stream.uriResourcePath.Some?) ==> r == Some(StreamLabel(i.name))
  {
    if i.isFile then i.relative
    else if i.stream.PipedOutput? && i.stream.uriResourcePath.Some? then i.stream.uriResourcePath
    else Some(StreamLabel(i.name))
  }

  // ---------------------------------------------------------------------------
  // Response events
  // ---------------------------------------------------------------------------

  /** The response line after adjustment, or `NullLine` when appending to a null line throws. */
  datatype LineOutcome = Line(line: Option<string>) | NullLine

  /**
   * The line before the text is appended: the code's string replaces the received line
   * when there is a code and the text does not already start with it.
   */
  function BaseLine(p: ResponseParms): (r: Option<string>)
    ensures r == p.responseLine || (p.responseCode.Some? && r == Some(IntText(p.responseCode.value)))
    ensures p.responseCode.None? ==> r == p.responseLine
    ensures p.responseCode.Some? && p.responseText.Some? && StartsWith(p.responseText.value, IntText(p.responseCode.value))
      ==> r == p.responseLine
  {
    if p.responseCode.Some? && (p.responseText.None? || !StartsWith(p.responseText.value, IntText(p.responseCode.value)))
    then Some(IntText(p.responseCode.value))
    else p.responseLine
  }

  /** The full adjusted response line: the base line, a space when it is non-empty, then the text. */
  function ResponseLine(p: ResponseParms): (r: LineOutcome)
    ensures p.responseText.None? ==> r == Line(BaseLine(p))
    ensures r.NullLine? <==> p.responseText.Some? && BaseLine(p).None?
  {
    var base := BaseLine(p);
    if p.responseText.None? then Line(base)
    else if base.None? then NullLine
    else Line(Some(base.value + (if |base.value| > 0 then " " else "") + p.responseText.value))
  }

  /** The status after adjustment: a missing status becomes Error for a code of 400 or above. */
  function ResponseStatus(p: ResponseParms): (r: Option<Status>)
    ensures p.status.Some? ==> r == p.status
    ensures p.status.None? ==> (r.Some? <==> p.responseCode.Some? && p.responseCode.value >= 400)
    ensures p.status.None? && r.Some? ==> r.value == Error
  {
    if p.status.None? && p.responseCode.Some? && p.responseCode.value >= 400 then Some(Error) else p.status
  }

  /** A code without text: the line is exactly the code, whatever line was received. */
  lemma ResponseCodeOnly(p: ResponseParms)
    requires p.responseCode.Some? && p.responseText.None?
    ensures ResponseLine(p) == Line(Some(IntText(p.responseCode.value)))
  {
  }

  /** A code and a text that does not start with it: the line is the code, one space, the text. */
  lemma ResponseCodeWithOtherText(p: ResponseParms)
    requires p.responseCode.Some? && p.responseText.Some?
    requires !StartsWith(p.responseText.value, IntText(p.responseCode.value))
    ensures ResponseLine(p) == Line(Some(IntText(p.responseCode.value) + " " + p.responseText.value))
  {
  }

  /** Whenever there is a text and nothing throws, the line ends with that text. */
  lemma ResponseLineEndsWithText(p: ResponseParms)
    requires p.responseText.Some? && ResponseLine(p).Line?
    ensures ResponseLine(p).line.Some? && EndsWith(ResponseLine(p).line.value, p.responseText.value)
  {
  }

  /**
   * When the code does not replace the received line (there is none, or the text already
   * starts with it), a received empty line becomes the text alone and any other received
   * line is followed by one space and the text.
   */
  lemma ResponseLineKeepsLine(p: ResponseParms, b: string)
    requires p.responseText.Some? && p.responseLine == Some(b)
    requires p.responseCode.None? || StartsWith(p.responseText.value, IntText(p.responseCode.value))
    ensures b == "" ==> ResponseLine(p) == Line(p.responseText)
    ensures b != "" ==> ResponseLine(p) == Line(Some(b + " " + p.responseText.value))
  {
    if b == "" {
      assert b + "" + p.responseText.value == p.responseText.value;
    }
  }

  /**
   * Appending throws exactly when there is a text, the received line is null, and the code
   * does not replace it (there is no code, or the text already starts with it).
   */
  lemma ResponseLineThrows(p: ResponseParms)
    ensures ResponseLine(p) == NullLine <==>
      p.responseText.Some? && p.responseLine.None? &&
      (p.responseCode.None? || StartsWith(p.responseText.value, IntText(p.responseCode.value)))
  {
  }

  /** The RESULT line of a response event; a null status prints as "null". */
  function ResponseResultLine(p: ResponseParms, line: Option<string>): (r: string)
    ensures StartsWith(r, "RESULT: ")
  {
    "RESULT: " + (if ResponseStatus(p).Some? then StatusName(ResponseStatus(p).value) else "null")
      + PadString(" ", line) + PadString(" ", p.statusMessage)
  }

  // ---------------------------------------------------------------------------
  // Detail events
  // ---------------------------------------------------------------------------

  /** The prefix of a detail line: the error flag wins over the warning flag. */
  function DetailPrefix(p: DetailParms): (r: string)
    ensures p.isError ==> r == "ERROR:"
    ensures !p.isError && p.isWarning ==> r == "WARNING:"
    ensures !p.isError && !p.isWarning ==> r == "DETAIL:"
  {
    if p.isError then "ERROR:" else if p.isWarning then "WARNING:" else "DETAIL:"
  }

  /** `warning()`: detail parameters with only the warning flag set. */
  function WarningDetail(): (p: DetailParms)
    ensures p.isWarning && !p.isError
    ensures p.message.None? && p.level == 0
  {
    DetailParms(false, true, None, 0)
  }

  /** `error()`: detail parameters with only the error flag set. */
  function ErrorDetail(): (p: DetailParms)
    ensures p.isError && !p.isWarning
    ensures p.message.None? && p.level == 0
  {
    DetailParms(true, false, None, 0)
  }

  // ---------------------------------------------------------------------------
  // Command results
  // ---------------------------------------------------------------------------

  /** One "ENTRY: " line per directory entry, in list order. */
  function EntryLines(entries: seq<Entry>, entryText: Entry -> string): (r: seq<string>)
    ensures |r| == |entries|
  {
    if entries == [] then [] else ["ENTRY: " + entryText(entries[0])] + EntryLines(entries[1..], entryText)
  }

  lemma {:induction false} EntryLinesAppend(entries: seq<Entry>, e: Entry, entryText: Entry -> string)
    ensures EntryLines(entries + [e], entryText) == EntryLines(entries, entryText) + ["ENTRY: " + entryText(e)]
  {
    if entries != [] {
      assert (entries + [e])[1..] == entries[1..] + [e];
      EntryLinesAppend(entries[1..], e, entryText);
    }
  }

  /** Line `k` of the entry listing renders entry `k`. */
  lemma {:induction false} EntryLinesAt(entries: seq<Entry>, entryText: Entry -> string, k: nat)
    requires k < |entries|
    ensures |EntryLines(entries, entryText)| == |entries|
    ensures EntryLines(entries, entryText)[k] == "ENTRY: " + entryText(entries[k])
  {
    if k > 0 {
      EntryLinesAt(entries[1..], entryText, k - 1);
    } else if |entries| > 1 {
      EntryLinesAt(entries[1..], entryText, 0);
    }
  }

  /**
   * The lines printed before RESULT for a result the client supplied: its exception, or
   * the entries of a successful listing, or nothing.
   */
  function ResultDetailLines(r: CommandResult, entryText: Entry -> string): (lines: seq<string>)
    ensures r.status == Exception && r.exception.Some? ==> lines == ["EXCEPTION: " + r.exception.value.text]
    ensures r.status == Success && r.dirEntries.Some? ==> |lines| == |r.dirEntries.value|
    ensures r.status == Success && r.dirEntries.Some? ==> lines == EntryLines(r.dirEntries.value, entryText)
    ensures r.status == Exception && r.exception.None? ==> lines == []
    ensures r.status != Exception && r.status != Success ==> lines == []
    ensures r.dirEntries.None? && r.exception.None? ==> lines == []
  {
    if r.status == Exception && r.exception.Some? then ["EXCEPTION: " + r.exception.value.text]
    else if r.IsSuccess() && r.dirEntries.Some? then EntryLines(r.dirEntries.value, entryText)
    else []
  }

  /** The final RESULT line of a command. */
  function CommandResultLine(p: CommandResultParms, result: CommandResult, dateText: int -> string): (r: string)
    ensures StartsWith(r, "RESULT: " + StatusName(p.status))
  {
    "RESULT: " + StatusName(p.status)
      + PadOptional(" ", p.statusMessage)
      + PadOptional(" cwd=", result.dirCurrent)
      + PadNumber(" size=", p.fileSize)
      + PadDate(" modified=", p.lastModified, dateText)
      + PadString(" copyPath=", p.copyPath)
      + (if p.deleteFailed then "deleteError" else "")
  }

  /**
   * A failed delete appends "deleteError" to the line that would otherwise be printed,
   * with no separator in front of it.
   */
  lemma CommandResultLineShape(p: CommandResultParms, result: CommandResult, dateText: int -> string)
    ensures StartsWith(CommandResultLine(p, result, dateText), "RESULT: " + StatusName(p.status))
    ensures p.deleteFailed ==> EndsWith(CommandResultLine(p, result, dateText), "deleteError")
    ensures p.deleteFailed ==>
      CommandResultLine(p, result, dateText) == CommandResultLine(p.(deleteFailed := false), result, dateText) + "deleteError"
  {
  }

  // ---------------------------------------------------------------------------
  // The logger
  // ---------------------------------------------------------------------------

  class TestLogger {
    /** Every line printed to the output stream, oldest first. */
    var lines: seq<string>

    constructor ()
      ensures lines == []
    {
      lines := [];
    }

    method LogHint(content: Option<string>)
      modifies this
      ensures lines == old(lines) + ["HINT: " + JavaStr(content)]
    {
      lines := lines + ["HINT: " + JavaStr(content)];
    }

    /** Nothing for two nulls; otherwise one DEBUG line with the message, the throwable's message, or both. */
    method Debug(message: Option<string>, throwable: Option<Throwable>)
      modifies this
      ensures message.None? && throwable.None? ==> lines == old(lines)
      ensures message.None? && throwable.Some? ==> lines == old(lines) + ["DEBUG: " + JavaStr(throwable.value.message)]
      ensures message.Some? && throwable.None? ==> lines == old(lines) + ["DEBUG: " + message.value]
      ensures message.Some? && throwable.Some? ==>
        lines == old(lines) + ["DEBUG: " + message.value + " - " + JavaStr(throwable.value.message)]
    {
      if message.Some? || throwable.Some? {
        if message.None? {
          lines := lines + ["DEBUG: " + JavaStr(throwable.value.message)];
        } else if throwable.None? {
          lines := lines + ["DEBUG: " + message.value];
        } else {
          lines := lines + ["DEBUG: " + message.value + " - " + JavaStr(throwable.value.message)];
        }
      }
    }

    /** A retrieving line when there is an incoming side, else a storing line for an outgoing side. */
    method LogFile(p: FileParms)
      modifies this
      ensures p.incoming.Some? ==> lines == old(lines) + ["FILE: retrieving file " + PadEntry(p.entry)
        + PadString(" to ", DestName(p.incoming.value)) + PadNumber(" file ", p.fileNum) + PadNumber(" of ", p.fileCount)]
      ensures p.incoming.None? && p.outgoing.Some? ==> lines == old(lines) + ["FILE: storing file "
        + JavaStr(SourceName(p.outgoing.value)) + PadString(" to ", Some(PadEntry(p.entry)))
        + PadNumber(" file ", p.fileNum) + PadNumber(" of ", p.fileCount)]
      ensures p.incoming.None? && p.outgoing.None? ==> lines == old(lines)
    {
      if p.incoming.Some? {
        lines := lines + ["FILE: retrieving file " + PadEntry(p.entry)
          + PadString(" to ", DestName(p.incoming.value)) + PadNumber(" file ", p.fileNum) + PadNumber(" of ", p.fileCount)];
      } else if p.outgoing.Some? {
        lines := lines + ["FILE: storing file " + JavaStr(SourceName(p.outgoing.value))
          + PadString(" to ", Some(PadEntry(p.entry))) + PadNumber(" file ", p.fileNum) + PadNumber(" of ", p.fileCount)];
      }
    }

    /**
     * Prints what the client's result carries, then the RESULT line; returns the client's
     * result, or a new one built from the reported status and message when there is none.
     */
    method LogCommandResult(p: CommandResultParms, entryText: Entry -> string, dateText: int -> string)
      returns (result: CommandResult)
      modifies this
      ensures p.commandResult.Some? ==> result == p.commandResult.value
      ensures p.commandResult.None? ==> result == NewCommandResult(p.status, p.statusMessage)
      ensures p.commandResult.Some? ==>
        lines == old(lines) + ResultDetailLines(result, entryText) + [CommandResultLine(p, result, dateText)]
      ensures p.commandResult.None? ==> lines == old(lines) + [CommandResultLine(p, result, dateText)]
    {
      if p.commandResult.Some? {
        result := p.commandResult.value;
        if result.status == Exception && result.exception.Some? {
          lines := lines + ["EXCEPTION: " + result.exception.value.text];
        } else if result.IsSuccess() {
          if result.dirEntries.Some? {
            var entries := result.dirEntries.value;
            for k := 0 to |entries|
              invariant lines == old(lines) + EntryLines(entries[..k], entryText)
            {
              EntryLinesAppend(entries[..k], entries[k], entryText);
              assert entries[..k + 1] == entries[..k] + [entries[k]];
              lines := lines + ["ENTRY: " + entryText(entries[k])];
            }
            assert entries[..|entries|] == entries;
          }
        }
      } else {
        result := NewCommandResult(p.status, p.statusMessage);
      }
      lines := lines + [CommandResultLine(p, result, dateText)];
    }

    method LogRequest(p: RequestParms)
      modifies this
      ensures lines == old(lines) + ["REQUEST: " + JavaStr(p.requestText) + " type=" + JavaStr(p.requestType)]
    {
      lines := lines + ["REQUEST: " + JavaStr(p.requestText) + " type=" + JavaStr(p.requestType)];
    }

    /**
     * Adjusts the response line and status, then prints one RESULT line. When there is a
     * text to append to a null line, Java throws a `NullPointerException` before printing.
     */
    method LogResponse(p: ResponseParms) returns (thrown: bool)
      modifies this
      ensures thrown <==> ResponseLine(p) == NullLine
      ensures thrown ==> lines == old(lines)
      ensures !thrown ==> lines == old(lines) + [ResponseResultLine(p, ResponseLine(p).line)]
    {
      var responseLine := p.responseLine;
      var status := p.status;
      var message := p.statusMessage;
      if p.responseCode.Some? &&
         (p.responseText.None? || !StartsWith(p.responseText.value, IntText(p.responseCode.value))) {
        responseLine := Some(IntText(p.responseCode.value));
      }
      if p.responseText.Some? {
        if responseLine.None? {
          return true;
        }
        if |responseLine.value| > 0 {
          responseLine := Some(responseLine.value + " ");
        }
        responseLine := Some(responseLine.value + p.responseText.value);
      }
      if status.None? && p.responseCode.Some? {
        if p.responseCode.value >= 400 {
          status := Some(Error);
        }
      }
      assert status == ResponseStatus(p);
      lines := lines + ["RESULT: " + (if status.Some? then StatusName(status.value) else "null")
        + PadString(" ", responseLine) + PadString(" ", message)];
      thrown := false;
    }

    method LogDetail(p: DetailParms)
      modifies this
      ensures lines == old(lines) + [DetailPrefix(p) + PadString(" message=", p.message) + PadNumber(" level=", p.level)]
    {
      lines := lines + [DetailPrefix(p) + PadString(" message=", p.message) + PadNumber(" level=", p.level)];
    }

    /** EXCEPTION for an `Exception`, ERROR for any other throwable, then its stack trace. */
    method LogThrowable(p: ThrowableParms)
      modifies this
      ensures p.throwable.isException ==> lines == old(lines) + ["EXCEPTION: " + p.throwable.text] + p.throwable.stackTrace
      ensures !p.throwable.isException ==> lines == old(lines) + ["ERROR: " + p.throwable.text] + p.throwable.stackTrace
    {
      var e := p.throwable;
      if e.isException {
        lines := lines + ["EXCEPTION: " + e.text];
      } else {
        lines := lines + ["ERROR: " + e.text];
      }
      lines := lines + e.stackTrace;
    }
  }
}
