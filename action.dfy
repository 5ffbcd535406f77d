/**
 * The test connector action: a table of property values the connector reads, pass-through
 * resolvers, host services that are not implemented, and a command processor built on
 * first use.
 */
module ConnectorAction {
  import opened Wrappers
  import opened Text
  import opened Framework

  /** An opaque `CommandProcessor` of the external shell. */
  datatype Processor = Processor(id: nat)

  /** An opaque `IConnectorCommand`. */
  datatype HostCommand = HostCommand(id: nat)

  /** The four mailbox folders the host could name. */
  datatype Mailbox = Inbox | Outbox | Sentbox | Receivedbox

  const NotImplemented: string := "not implemented"

  /**
   * `Optional.ofNullable(values.get(key))`: an absent key and a key mapped to null both
   * read as empty. Keys and values may be null, as in a `HashMap`.
   */
  function Lookup(values: map<Option<string>, Option<string>>, key: Option<string>): (r: Option<string>)
    ensures key !in values ==> r.None?
    ensures key in values ==> r == values[key]
  {
    if key in values then values[key] else None
  }

  /** After putting `value` under `key`, the key reads back as `value` and every other key is unchanged. */
  lemma LookupAfterPut(values: map<Option<string>, Option<string>>, key: Option<string>, value: Option<string>, other: Option<string>)
    ensures Lookup(values[key := value], key) == value
    ensures other != key ==> Lookup(values[key := value], other) == Lookup(values, other)
  {
  }

  /** Putting the same key twice keeps only the second value. */
  lemma PutTwice(values: map<Option<string>, Option<string>>, key: Option<string>, first: Option<string>, second: Option<string>)
    ensures values[key := first][key := second] == values[key := second]
  {
  }

  /** A fresh table reads every key as empty. */
  lemma LookupEmpty(key: Option<string>)
    ensures Lookup(map[], key).None?
  {
  }

  function IsInterrupted(): (r: bool)
    ensures !r
  {
    false
  }

  /** `resolveSource` returns its argument. */
  function ResolveSource(source: Option<string>): (r: Option<string>)
    ensures r == source
  {
    source
  }

  /** `resolveHostCommand` returns the command, ignoring the file name and destination. */
  function ResolveHostCommand(command: Option<string>, filename: Option<string>, destination: Option<string>): (r: Option<string>)
    ensures r == command
  {
    command
  }

  /** `resolveDestination` returns the destination, ignoring the file name. */
  function ResolveDestination(destination: Option<string>, filename: Option<string>): (r: Option<string>)
    ensures r == destination
  {
    destination
  }

  /** `genTransferId(scheme)`: the scheme name, a dash, and a random UUID's text (`uuid`). */
  function GenTransferId(schemeName: Option<string>, uuid: string): (r: string)
    ensures StartsWith(r, JavaStr(schemeName) + "-")
    ensures r[|JavaStr(schemeName)| + 1..] == uuid
  {
    JavaStr(schemeName) + "-" + uuid
  }

  /** `genTransferId(scheme, transferId)` ignores the transfer id. */
  function GenTransferIdFor(schemeName: Option<string>, transferId: Option<string>, uuid: string): (r: string)
    ensures r == GenTransferId(schemeName, uuid)
  {
    GenTransferId(schemeName, uuid)
  }

  /** Two calls that differ only in the transfer id give the same id. */
  lemma GenTransferIdIgnoresTransferId(schemeName: Option<string>, t1: Option<string>, t2: Option<string>, uuid: string)
    ensures GenTransferIdFor(schemeName, t1, uuid) == GenTransferIdFor(schemeName, t2, uuid)
  {
  }

  function FindFiles(command: HostCommand): (r: Result<seq<Outgoing>, string>)
    ensures r == Err(NotImplemented)
  {
    Err(NotImplemented)
  }

  function GetIncoming(command: HostCommand, entry: Option<Entry>, transferId: Option<string>): (r: Result<Incoming, string>)
    ensures r == Err(NotImplemented)
  {
    Err(NotImplemented)
  }

  function ParseCommand(command: Option<string>): (r: Result<HostCommand, string>)
    ensures r == Err(NotImplemented)
  {
    Err(NotImplemented)
  }

  /** `getInbox`, `getOutbox`, `getSentbox` and `getReceivedbox` all throw. */
  function GetMailbox(box: Mailbox): (r: Result<string, string>)
    ensures r == Err(NotImplemented)
  {
    Err(NotImplemented)
  }

  /** Appending to an incoming stream is not implemented; otherwise nothing happens. */
  function GetFilterOutputStream(incoming: Incoming, append: bool): (r: Outcome<string>)
    ensures r.Fail? <==> append
    ensures r.Fail? ==> r.error == NotImplemented
  {
    if append then Fail(NotImplemented) else Pass
  }

  function GetFilterInputStream(outgoing: Outgoing): (r: Outcome<string>)
    ensures r == Pass
  {
    Pass
  }

  class TestAction {
    /** The property table. */
    var values: map<Option<string>, Option<string>>
    /** The command processor, null until first requested. */
    var commandProcessor: Option<Processor>

    constructor ()
      ensures values == map[] && commandProcessor.None?
    {
      values := map[];
      commandProcessor := None;
    }

    method Set(key: Option<string>, value: Option<string>) returns (self: TestAction)
      modifies this
      ensures self == this
      ensures values == old(values)[key := value] && commandProcessor == old(commandProcessor)
    {
      values := values[key := value];
      return this;
    }

    method GetPropertyValue(key: Option<string>) returns (r: Option<string>)
      ensures r == Lookup(values, key)
    {
      r := if key in values then values[key] else None;
    }

    /**
     * `getCommandProcessor`: while the field is null, builds a processor (`attempt`, none
     * when its constructor throws, which is then logged and the field stays null); once the
     * field is set, returns it unchanged.
     */
    method GetCommandProcessor(attempt: Option<Processor>) returns (p: Option<Processor>, failed: bool)
      modifies this
      ensures old(commandProcessor).Some? ==> commandProcessor == old(commandProcessor) && !failed
      ensures old(commandProcessor).None? ==> commandProcessor == attempt && failed == attempt.None?
      ensures p == commandProcessor && values == old(values)
    {
      failed := false;
      if commandProcessor.None? {
        if attempt.Some? {
          commandProcessor := attempt;
        } else {
          failed := true;
        }
      }
      p := commandProcessor;
    }
  }
}
