# Connector API testing harness — Dafny model

This project models the sequential logic of a test harness for a file-transfer connector
plugin framework. The harness builds a plugin client, feeds it configuration values,
sends it synthetic commands, and prints the plugin's logging callbacks. The model covers four parts:

- `Logger` — `TestConnectorLogger`, which formats log callbacks into lines. It is a class
  whose `lines` field is everything printed to its `PrintStream` so far. The framework's
  parameter objects (`ResponseParms`, `DetailParms`, `FileParms`, `CommandResultParms`,
  `RequestParms`, `ThrowableParms`) are datatypes. Their `Option` fields stand for Java nulls.
- `ClientBuilder` — `TestConnectorClientBuilder`. It validates key/value settings and keeps
  them in a `settings` field. It picks the first constructor that accepts the schema plus the
  caller's arguments. It applies the settings in order: each one sets a property, runs a
  setter, or both, and the model records these steps as a trace of `Effect`s.
- `ConnectorAction` — `TestConnectorAction`. Its property table is a `map` field updated in
  place. It also has pass-through resolvers, "not implemented" host services (`Result`/`Outcome`
  errors) and a command processor built on first use.
- `Commands` — the fluent request builders. Each one is a class whose setters update fields
  in place. Its `Go` function assembles the command record from the current fields.

Shared modules: `Wrappers` (`Option`, `Result`, `Outcome`), `Text` (Java's rendering of
numbers, booleans and null strings) and `Framework` (the external API's value types: entries,
streams, statuses, throwables, command results).

Java behaviour the model makes explicit:
- Concatenating or `%s`-formatting a null string prints `"null"` (`Text.JavaStr`).
  So `"DELETE " + source` with no source set is `"DELETE null"`.
- A `HashMap` accepts null keys and values. `getPropertyValue` wraps the result in
  `Optional.ofNullable`, so a stored null reads back as empty.
- In `logResponse`, when there is a response text to append but the line is still null,
  `responseLine.length()` throws `NullPointerException` and nothing is printed
  (`ResponseLine` gives `NullLine`). `TestLogger.LogResponse` reports this as `thrown`.
- The framework's `Status` enum is not visible. It is modelled as `Success | Error | Exception |
  Other(name)`. `isSuccess()` is taken as status `Success`, and printing a status prints its
  `name()`. An `Other` status is taken to be valid (`Status.Valid`): its name differs from the
  three named constants, as distinct enum constants' names do.
- `CommandResultParms.getStatusMessage()` and `ConnectorCommandResult.getDirCurrent()` are taken
  to return `Optional<String>`, given the `pad` overload they resolve to. An empty message or
  directory therefore still prints its prefix (`PadOptional`). `ResponseParms.getStatusMessage()`
  is a plain string and goes through `PadString`.
- Java integer widths are not modelled. No operation does arithmetic that could wrap around.
  Numbers are only compared with 0 or 400 and printed.

## Model

| member | source | states |
|---|---|---|
| Text.NatText | src/main/java/com/cleo/labs/connector/testing/TestConnectorLogger.java:40 | `String.valueOf` of a non-negative number is a non-empty string of decimal digits |
| Text.NatTextRoundTrip | src/main/java/com/cleo/labs/connector/testing/TestConnectorLogger.java:38-43 | the printed digits read back as the number, with no leading zero |
| Text.NatTextInjective | src/main/java/com/cleo/labs/connector/testing/TestConnectorLogger.java:38-43 | different numbers never print alike |
| Text.IntText | src/main/java/com/cleo/labs/connector/testing/TestConnectorLogger.java:278-279 | `Integer.toString` of a response code is non-empty and starts with '-' exactly for negative codes |
| Text.BoolText | src/main/java/com/cleo/labs/connector/testing/TestConnectorClientBuilder.java:102 | `String.valueOf` of a boolean is "true" exactly for true and "false" exactly for false |
| Text.JavaStr | src/main/java/com/cleo/labs/connector/testing/TestConnectorLogger.java:154 | a null string prints as "null", any other string as itself |
| Framework.StatusName | src/main/java/com/cleo/labs/connector/testing/TestConnectorLogger.java:244 | for a valid status, the name is "Success", "Error" or "Exception" exactly for that constant |
| Framework.StatusNameInjective | src/main/java/com/cleo/labs/connector/testing/TestConnectorLogger.java:244 | two valid statuses that print alike are the same status |
| Framework.NewCommandResult | src/main/java/com/cleo/labs/connector/testing/TestConnectorLogger.java:242 | a result built from a status and message carries no exception, entries or current directory |
| Logger.PadOptional | src/main/java/com/cleo/labs/connector/testing/TestConnectorLogger.java:32-37 | a present value is printed after the prefix even if it is empty; an absent one prints nothing |
| Logger.PadString | src/main/java/com/cleo/labs/connector/testing/TestConnectorLogger.java:44-49 | the output is non-empty exactly when the string is non-null and non-empty, and is then prefix + string; null and "" behave alike |
| Logger.PadNumber | src/main/java/com/cleo/labs/connector/testing/TestConnectorLogger.java:38-43 | nothing for every value <= 0, negatives included; a positive value prints as the prefix followed by digits only |
| Logger.PadNumberRoundTrip | src/main/java/com/cleo/labs/connector/testing/TestConnectorLogger.java:38-43 | the digits after the prefix are the decimal digits of the value, with no leading zero |
| Logger.PadDate | src/main/java/com/cleo/labs/connector/testing/TestConnectorLogger.java:50-55 | a positive date prints as prefix + its external rendering; otherwise nothing |
| Logger.PadEntry | src/main/java/com/cleo/labs/connector/testing/TestConnectorLogger.java:56-61 | an entry prints as a space and its quoted path; no entry prints nothing, and only then |
| Logger.StreamLabel | src/main/java/com/cleo/labs/connector/testing/TestConnectorLogger.java:201 | the label is "*stream*/" followed by the name when the name is non-null and non-empty, and exactly "*stream*" otherwise |
| Logger.SourceName | src/main/java/com/cleo/labs/connector/testing/TestConnectorLogger.java:189-205 | fallback chain: the file's relative path, else a piped input stream's non-null URI path, else the stream label; only a file can yield null |
| Logger.DestName | src/main/java/com/cleo/labs/connector/testing/TestConnectorLogger.java:207-223 | the same chain for the incoming side; only a piped output stream's URI path counts |
| Logger.ResponseStatus | src/main/java/com/cleo/labs/connector/testing/TestConnectorLogger.java:288-293 | a non-null status is never changed; a null one becomes Error exactly when a code is present and >= 400 |
| Logger.BaseLine | src/main/java/com/cleo/labs/connector/testing/TestConnectorLogger.java:276-280 | the line before appending is the received line or the code's string; without a code, or with a text that already starts with the code, it is the received line |
| Logger.ResponseLine | src/main/java/com/cleo/labs/connector/testing/TestConnectorLogger.java:281-286 | without a text the line is left as adjusted; appending throws exactly when there is a text and the adjusted line is null |
| Logger.ResponseLineKeepsLine | src/main/java/com/cleo/labs/connector/testing/TestConnectorLogger.java:276-286 | when the code does not replace a received line, an empty line becomes the text alone and any other line is followed by one space and the text |
| Logger.ResponseCodeOnly | src/main/java/com/cleo/labs/connector/testing/TestConnectorLogger.java:277-280 | a code with no text replaces the received line by the code's string |
| Logger.ResponseCodeWithOtherText | src/main/java/com/cleo/labs/connector/testing/TestConnectorLogger.java:277-286 | a code with a text not starting with it gives code, one space, text |
| Logger.ResponseLineEndsWithText | src/main/java/com/cleo/labs/connector/testing/TestConnectorLogger.java:281-286 | whenever a text is present and nothing throws, the line ends with that text |
| Logger.ResponseLineThrows | src/main/java/com/cleo/labs/connector/testing/TestConnectorLogger.java:272-286 | appending throws exactly when there is a text, the received line is null and the code does not replace it |
| Logger.ResponseResultLine | src/main/java/com/cleo/labs/connector/testing/TestConnectorLogger.java:296-298 | the response event's line starts with "RESULT: " |
| Logger.DetailPrefix | src/main/java/com/cleo/labs/connector/testing/TestConnectorLogger.java:308 | "ERROR:" when the error flag is set, even with the warning flag; else "WARNING:"; else "DETAIL:" |
| Logger.WarningDetail | src/main/java/com/cleo/labs/connector/testing/TestConnectorLogger.java:313-316 | `warning()` sets only the warning flag |
| Logger.ErrorDetail | src/main/java/com/cleo/labs/connector/testing/TestConnectorLogger.java:318-321 | `error()` sets only the error flag |
| Logger.EntryLinesAppend | src/main/java/com/cleo/labs/connector/testing/TestConnectorLogger.java:238 | listing one more entry adds one more "ENTRY: " line at the end |
| Logger.EntryLinesAt | src/main/java/com/cleo/labs/connector/testing/TestConnectorLogger.java:237-239 | one "ENTRY: " line per entry, line k for entry k |
| Logger.EntryLines | src/main/java/com/cleo/labs/connector/testing/TestConnectorLogger.java:238 | listing the entries prints exactly as many lines as there are entries |
| Logger.ResultDetailLines | src/main/java/com/cleo/labs/connector/testing/TestConnectorLogger.java:233-240 | an Exception result with an exception prints exactly its EXCEPTION line; a Success result with entries prints exactly its "ENTRY: " listing; an Exception result without an exception, any other status, or a result with neither exception nor entries, prints nothing |
| Logger.CommandResultLine | src/main/java/com/cleo/labs/connector/testing/TestConnectorLogger.java:244-250 | the final RESULT line starts with "RESULT: " and the name of the reported status |
| Logger.CommandResultLineShape | src/main/java/com/cleo/labs/connector/testing/TestConnectorLogger.java:244-250 | the RESULT line starts with "RESULT: " and the reported status, and, when delete failed, is the line that would otherwise be printed with "deleteError" appended with no separator |
| Logger.TestLogger.constructor | src/main/java/com/cleo/labs/connector/testing/TestConnectorLogger.java:163-165 | a new logger has printed nothing |
| Logger.TestLogger.LogHint | src/main/java/com/cleo/labs/connector/testing/TestConnectorLogger.java:145-148 | prints exactly one HINT line |
| Logger.TestLogger.Debug | src/main/java/com/cleo/labs/connector/testing/TestConnectorLogger.java:150-161 | no line for two nulls; otherwise exactly one DEBUG line: the throwable's message, the message, or "message - throwable message" |
| Logger.TestLogger.LogFile | src/main/java/com/cleo/labs/connector/testing/TestConnectorLogger.java:172-187 | a retrieving line when there is an incoming side, even if there is also an outgoing side; a storing line only for an outgoing side alone; nothing otherwise |
| Logger.TestLogger.LogCommandResult | src/main/java/com/cleo/labs/connector/testing/TestConnectorLogger.java:230-252 | returns the client's result unchanged, or a new one from the reported status and message; prints its exception or its listing's entries in order, then one final RESULT line |
| Logger.TestLogger.LogRequest | src/main/java/com/cleo/labs/connector/testing/TestConnectorLogger.java:259-262 | prints exactly one REQUEST line with text and type |
| Logger.TestLogger.LogResponse | src/main/java/com/cleo/labs/connector/testing/TestConnectorLogger.java:269-299 | prints exactly one RESULT line with the adjusted status, line and message, unless appending to a null line throws, in which case nothing is printed |
| Logger.TestLogger.LogDetail | src/main/java/com/cleo/labs/connector/testing/TestConnectorLogger.java:306-311 | prints one line: the prefix, then the message and the level when present |
| Logger.TestLogger.LogThrowable | src/main/java/com/cleo/labs/connector/testing/TestConnectorLogger.java:328-337 | EXCEPTION for an Exception, ERROR for any other throwable, then the stack trace lines |
| ClientBuilder.KeyValueSetting | src/main/java/com/cleo/labs/connector/testing/TestConnectorClientBuilder.java:42-45 | a key/value setting has no setter |
| ClientBuilder.SetterSetting | src/main/java/com/cleo/labs/connector/testing/TestConnectorClientBuilder.java:46-48 | a setter setting has null key and value |
| ClientBuilder.Apply | src/main/java/com/cleo/labs/connector/testing/TestConnectorClientBuilder.java:49-56 | sets the property only when key and value are both non-null, runs the setter only when it is non-null, and sets the property first |
| ClientBuilder.ApplyAllConcat | src/main/java/com/cleo/labs/connector/testing/TestConnectorClientBuilder.java:116 | applying settings is done in insertion order: applying a + b is applying a, then b |
| ClientBuilder.ApplyAll | src/main/java/com/cleo/labs/connector/testing/TestConnectorClientBuilder.java:116 | each setting contributes at most two steps, so n settings apply at most 2n steps |
| ClientBuilder.Pairs | src/main/java/com/cleo/labs/connector/testing/TestConnectorClientBuilder.java:90-93 | a list of 2n strings yields exactly n settings |
| ClientBuilder.PairsAppend | src/main/java/com/cleo/labs/connector/testing/TestConnectorClientBuilder.java:90-92 | one more key/value pair adds one more setting at the end |
| ClientBuilder.PairsAt | src/main/java/com/cleo/labs/connector/testing/TestConnectorClientBuilder.java:90-93 | 2n strings give n settings; setting i has key string 2i and value string 2i+1 |
| ClientBuilder.Accepts | src/main/java/com/cleo/labs/connector/testing/TestConnectorClientBuilder.java:25-31 | a constructor that accepts the arguments has exactly as many parameters as there are arguments |
| ClientBuilder.Check | src/main/java/com/cleo/labs/connector/testing/TestConnectorClientBuilder.java:25-31 | a constructor of the wrong arity is rejected without looking at the arguments |
| ClientBuilder.CheckAccepted | src/main/java/com/cleo/labs/connector/testing/TestConnectorClientBuilder.java:25-31 | checking one constructor accepts it exactly when the arities agree and every argument is non-null and assignable to its parameter type |
| ClientBuilder.CheckNull | src/main/java/com/cleo/labs/connector/testing/TestConnectorClientBuilder.java:26-28 | checking a constructor throws when it reaches a null argument after non-null, assignable ones |
| ClientBuilder.CheckNonNull | src/main/java/com/cleo/labs/connector/testing/TestConnectorClientBuilder.java:27 | without null arguments checking a constructor never throws |
| ClientBuilder.FindConstructor | src/main/java/com/cleo/labs/connector/testing/TestConnectorClientBuilder.java:21-35 | constructors are checked in the order reflection returns them: returns the first one accepted, all earlier ones rejected; throws a null-pointer error at the first constructor whose check reaches a null argument before any is accepted; no such method when every constructor is rejected |
| ClientBuilder.TestClientBuilder.constructor | src/main/java/com/cleo/labs/connector/testing/TestConnectorClientBuilder.java:77-78 | a new builder has the null logger and no settings |
| ClientBuilder.TestClientBuilder.Open | src/main/java/com/cleo/labs/connector/testing/TestConnectorClientBuilder.java:65-79 | fails without a `@Client` annotation, or when the schema cannot be instantiated; otherwise a fresh builder with no settings |
| ClientBuilder.TestClientBuilder.Logger | src/main/java/com/cleo/labs/connector/testing/TestConnectorClientBuilder.java:81-84 | replaces the logger stream only |
| ClientBuilder.TestClientBuilder.SetPairs | src/main/java/com/cleo/labs/connector/testing/TestConnectorClientBuilder.java:86-94 | an odd-length list is refused and the settings stay unchanged; an even one appends its pairs in order after the earlier settings |
| ClientBuilder.TestClientBuilder.SetSetter | src/main/java/com/cleo/labs/connector/testing/TestConnectorClientBuilder.java:96-99 | appends exactly one setter setting at the end |
| ClientBuilder.TestClientBuilder.Debug | src/main/java/com/cleo/labs/connector/testing/TestConnectorClientBuilder.java:101-104 | appends exactly one setting, EnableDebug = "true" or "false" |
| ClientBuilder.TestClientBuilder.Build | src/main/java/com/cleo/labs/connector/testing/TestConnectorClientBuilder.java:106-123 | the arguments are the schema then the caller's arguments (possibly null) in order; fails with no such constructor exactly when every constructor is rejected, and throws the uncaught null-pointer error only when some constructor's check reaches a null argument; otherwise uses the first constructor that accepts them, none earlier does, and applies all settings in insertion order |
| ConnectorAction.Lookup | src/main/java/com/cleo/labs/connector/testing/TestConnectorAction.java:101-104 | an absent key reads as empty, a present key as its stored value (empty for a stored null) |
| ConnectorAction.LookupAfterPut | src/main/java/com/cleo/labs/connector/testing/TestConnectorAction.java:34-37 | after set(k, v), k reads back as v and every other key is unchanged |
| ConnectorAction.PutTwice | src/main/java/com/cleo/labs/connector/testing/TestConnectorAction.java:35 | setting one key twice keeps only the last value |
| ConnectorAction.LookupEmpty | src/main/java/com/cleo/labs/connector/testing/TestConnectorAction.java:28-29 | a fresh table reads every key as empty |
| ConnectorAction.IsInterrupted | src/main/java/com/cleo/labs/connector/testing/TestConnectorAction.java:39-42 | never interrupted |
| ConnectorAction.ResolveSource | src/main/java/com/cleo/labs/connector/testing/TestConnectorAction.java:44-47 | returns the source unchanged |
| ConnectorAction.ResolveHostCommand | src/main/java/com/cleo/labs/connector/testing/TestConnectorAction.java:49-53 | returns the command unchanged, whatever the file name and destination |
| ConnectorAction.ResolveDestination | src/main/java/com/cleo/labs/connector/testing/TestConnectorAction.java:55-58 | returns the destination unchanged, whatever the file name |
| ConnectorAction.GenTransferId | src/main/java/com/cleo/labs/connector/testing/TestConnectorAction.java:60-63 | the id starts with the scheme name and a dash, followed by the UUID text |
| ConnectorAction.GenTransferIdFor | src/main/java/com/cleo/labs/connector/testing/TestConnectorAction.java:106-109 | the two-argument form is the one-argument form |
| ConnectorAction.GenTransferIdIgnoresTransferId | src/main/java/com/cleo/labs/connector/testing/TestConnectorAction.java:106-109 | the transfer id given has no effect on the result |
| ConnectorAction.FindFiles | src/main/java/com/cleo/labs/connector/testing/TestConnectorAction.java:65-69 | always fails with "not implemented" |
| ConnectorAction.GetIncoming | src/main/java/com/cleo/labs/connector/testing/TestConnectorAction.java:71-75 | always fails with "not implemented" |
| ConnectorAction.GetFilterOutputStream | src/main/java/com/cleo/labs/connector/testing/TestConnectorAction.java:77-84 | fails with "not implemented" exactly when appending; otherwise does nothing |
| ConnectorAction.GetFilterInputStream | src/main/java/com/cleo/labs/connector/testing/TestConnectorAction.java:86-89 | does nothing |
| ConnectorAction.ParseCommand | src/main/java/com/cleo/labs/connector/testing/TestConnectorAction.java:91-94 | always fails with "not implemented" |
| ConnectorAction.GetMailbox | src/main/java/com/cleo/labs/connector/testing/TestConnectorAction.java:125-143 | all four mailbox getters always fail with "not implemented" |
| ConnectorAction.TestAction.constructor | src/main/java/com/cleo/labs/connector/testing/TestConnectorAction.java:27-32 | a new action has an empty table and no command processor |
| ConnectorAction.TestAction.Set | src/main/java/com/cleo/labs/connector/testing/TestConnectorAction.java:34-37 | stores the value under the key in place, leaving the rest of the table and the processor unchanged |
| ConnectorAction.TestAction.GetPropertyValue | src/main/java/com/cleo/labs/connector/testing/TestConnectorAction.java:101-104 | reads the table through `Lookup` |
| ConnectorAction.TestAction.GetCommandProcessor | src/main/java/com/cleo/labs/connector/testing/TestConnectorAction.java:111-123 | builds a processor only while the field is null (leaving it null when construction fails); once set, returns the same processor and changes nothing |
| Commands.OneArgText | src/main/java/com/cleo/labs/connector/testing/Commands.java:190-191 | the text is the command name, one space, then the source, which can be read back after the space |
| Commands.RenameText | src/main/java/com/cleo/labs/connector/testing/Commands.java:241-242 | "RENAME ", the source, one space, the destination |
| Commands.RenameTextAmbiguous | src/main/java/com/cleo/labs/connector/testing/Commands.java:241-242 | a source containing a space makes two different renames print the same text |
| Commands.Dir.constructor | src/main/java/com/cleo/labs/connector/testing/Commands.java:71-73 | a new listing has no path, no options, no pattern |
| Commands.Dir.SetPath | src/main/java/com/cleo/labs/connector/testing/Commands.java:75-78 | sets the path only |
| Commands.Dir.AddOption | src/main/java/com/cleo/labs/connector/testing/Commands.java:80-83 | adds the option to the set and touches nothing else |
| Commands.Dir.SetPattern | src/main/java/com/cleo/labs/connector/testing/Commands.java:85-88 | sets the pattern only |
| Commands.Dir.Go | src/main/java/com/cleo/labs/connector/testing/Commands.java:90-94 | DIR with the builder's options and pattern, the path as a dir-type entry, no destination and no parameters |
| Commands.Put.constructor | src/main/java/com/cleo/labs/connector/testing/Commands.java:98-101 | a new put has nothing set |
| Commands.Put.SetSource | src/main/java/com/cleo/labs/connector/testing/Commands.java:103-106 | sets the source only |
| Commands.Put.SetDestination | src/main/java/com/cleo/labs/connector/testing/Commands.java:108-111 | sets the destination only |
| Commands.Put.AddOption | src/main/java/com/cleo/labs/connector/testing/Commands.java:113-116 | adds the option to the set and touches nothing else |
| Commands.Put.PutParameter | src/main/java/com/cleo/labs/connector/testing/Commands.java:122-125 | overwrites the parameter's value, other parameters and fields unchanged |
| Commands.Put.Go | src/main/java/com/cleo/labs/connector/testing/Commands.java:127-131 | PUT with a one-element source array and the destination as a file-type entry |
| Commands.Get.constructor | src/main/java/com/cleo/labs/connector/testing/Commands.java:135-138 | a new get has nothing set |
| Commands.Get.SetSource | src/main/java/com/cleo/labs/connector/testing/Commands.java:140-143 | sets the source only |
| Commands.Get.SetDestination | src/main/java/com/cleo/labs/connector/testing/Commands.java:145-148 | sets the destination only |
| Commands.Get.AddOption | src/main/java/com/cleo/labs/connector/testing/Commands.java:150-153 | adds the option to the set and touches nothing else |
| Commands.Get.PutParameter | src/main/java/com/cleo/labs/connector/testing/Commands.java:159-162 | overwrites the parameter's value, other parameters and fields unchanged |
| Commands.Get.Go | src/main/java/com/cleo/labs/connector/testing/Commands.java:164-168 | GET with the source as a file-type entry and the incoming destination |
| Commands.Delete.constructor | src/main/java/com/cleo/labs/connector/testing/Commands.java:172-173 | a new delete has nothing set |
| Commands.Delete.SetSource | src/main/java/com/cleo/labs/connector/testing/Commands.java:175-178 | sets the source only |
| Commands.Delete.AddOption | src/main/java/com/cleo/labs/connector/testing/Commands.java:180-183 | adds the option to the set and touches nothing else |
| Commands.Delete.Go | src/main/java/com/cleo/labs/connector/testing/Commands.java:189-193 | "DELETE source" with the builder's options, no destination and no parameters |
| Commands.Mkdir.constructor | src/main/java/com/cleo/labs/connector/testing/Commands.java:197 | a new mkdir has no source |
| Commands.Mkdir.SetSource | src/main/java/com/cleo/labs/connector/testing/Commands.java:199-202 | sets the source |
| Commands.Mkdir.Go | src/main/java/com/cleo/labs/connector/testing/Commands.java:204-208 | "MKDIR source" with no options, no destination and no parameters |
| Commands.Rmdir.constructor | src/main/java/com/cleo/labs/connector/testing/Commands.java:212 | a new rmdir has no source |
| Commands.Rmdir.SetSource | src/main/java/com/cleo/labs/connector/testing/Commands.java:214-217 | sets the source |
| Commands.Rmdir.Go | src/main/java/com/cleo/labs/connector/testing/Commands.java:219-223 | "RMDIR source" with no options, no destination and no parameters |
| Commands.Rename.constructor | src/main/java/com/cleo/labs/connector/testing/Commands.java:227-228 | a new rename has no source and no destination |
| Commands.Rename.SetSource | src/main/java/com/cleo/labs/connector/testing/Commands.java:230-233 | sets the source only |
| Commands.Rename.SetDestination | src/main/java/com/cleo/labs/connector/testing/Commands.java:235-238 | sets the destination only |
| Commands.Rename.Go | src/main/java/com/cleo/labs/connector/testing/Commands.java:240-244 | "RENAME source destination" with source and destination, no options and no parameters |
| Commands.Attr.constructor | src/main/java/com/cleo/labs/connector/testing/Commands.java:248 | a new attribute request has no source |
| Commands.Attr.SetSource | src/main/java/com/cleo/labs/connector/testing/Commands.java:250-253 | sets the source |
| Commands.Attr.Go | src/main/java/com/cleo/labs/connector/testing/Commands.java:255-257 | asks the client for the attributes of the source path |
| Commands.NewDir | src/main/java/com/cleo/labs/connector/testing/Commands.java:38-40 | a fresh listing with just the path set |
| Commands.NewPut | src/main/java/com/cleo/labs/connector/testing/Commands.java:42-44 | a fresh put with just source and destination set |
| Commands.NewGet | src/main/java/com/cleo/labs/connector/testing/Commands.java:46-48 | a fresh get with just source and destination set |
| Commands.NewDelete | src/main/java/com/cleo/labs/connector/testing/Commands.java:50-52 | a fresh delete with just the source set |
| Commands.NewMkdir | src/main/java/com/cleo/labs/connector/testing/Commands.java:54-56 | a fresh mkdir with the source set |
| Commands.NewRmdir | src/main/java/com/cleo/labs/connector/testing/Commands.java:58-60 | a fresh rmdir with the source set |
| Commands.NewRename | src/main/java/com/cleo/labs/connector/testing/Commands.java:62-64 | a fresh rename with source s and destination d |
| Commands.NewAttr | src/main/java/com/cleo/labs/connector/testing/Commands.java:66-68 | a fresh attribute request with the source set |

## Left out

- Reflection (`getDeclaredConstructors`, `getParameterTypes`, `isAssignableFrom`, `getAnnotation`, `newInstance`): the model has a client class's list of constructor signatures, an `assignable` relation given as a parameter, and a schema class's optional annotation and instance.
- ClientBuilder.FindConstructor: `getDeclaredConstructors` returns the constructors in no particular order, and Java does not specify it. The model takes that order as given in `ClientClass.constructors`. When two constructors accept the same arguments, which one is used depends on that order.
- ClientBuilder.TestClientBuilder.Build: does not model a plugin constructor that throws (`InvocationTargetException` and the like) or what `client.setup` does. Both are code outside this repository. The built `Client` records the chosen constructor, its arguments, the settings' effects and the logger stream.
- The schema's own `setup()` and the `TestConnector`/`TestConnectorHost` objects `build` creates are external. `TestConnector.set`, which forwards to the action's `set`, is not part of this model. A setter's effect on the connector is opaque (`RunSetter`).
- The static `TestConnectorClientBuilder.setup` is left out. It repeats `build` with one setter and swallows reflection errors by returning null.
- Output streams are the `lines` field; `printStackTrace` is opaque lines carried by the throwable. `Entry.toString`, `Throwable.toString`/`getMessage` and `Attributes.toLocalDateTime` are opaque renderings: parameters (`entryText`, `dateText`) or string fields.
- The builder factories `file()`, `commandResult()`, `request()`, `response()`, `detail()` and `throwable()` return framework builder objects bound to the logger. They are external, and only the parameters those builders finally pass are modelled. `warning()` and `error()` are modelled by the parameters they start from. The external builder is assumed to start with no message and level 0; those defaults are not visible in this repository.
- Logger.TestLogger.LogThrowable: a null throwable, on which Java throws `NullPointerException`, is not modelled. `CommandResultParms.status` is taken as non-null for the same reason.
- The commented-out legacy logging methods of the logger are not modelled.
- `UUID.randomUUID` is nondeterministic: `GenTransferId` takes the UUID's text as a parameter.
- `match` delegates to `java.util.regex.Pattern.matches`, a regex engine outside this repository. It is not modelled.
- The `synchronized` block of `getCommandProcessor` is modelled sequentially. The `CommandProcessor` constructor is external: its outcome is the parameter `attempt`. The logging of its failure to the client's logger is reported as `failed`.
- `client.doDir`, `doPut`, `doGet`, `doOther` and `doGetAttributes` are foreign calls. Each `Go` returns the record or path it would pass.
- The `option(ConnectorCommandOption)` overloads of Put, Get and Delete are the same as `option(option.toString())`, and the enum's rendering is external. Options are taken as non-null strings, and parameter keys and parameter values as non-null. In Java `parameter(k, null)` stores a null value in the map, and the model has no `Value` for null.
- `logger(PrintStream)` is modelled by an opaque `Sink` value.
- Commands.Dir.Go, Commands.Put.Go, Commands.Get.Go and Commands.Delete.Go: the record gets a copy of the builder's option set and parameter map. In Java the record shares the builder's own `HashSet` and `HashMap`, so a later `option` or `parameter` call would also change a record already built. Aliasing between the builder and the record is not modelled.
- ClientBuilder.TestClientBuilder.Build: the null-pointer error from a null argument is modelled as an error result (`NullArgumentThrown`). In Java it is an uncaught `NullPointerException`, not a `ConnectorException`.
