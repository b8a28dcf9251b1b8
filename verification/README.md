# vscode-buf: context notifications and the `buf generate` outcome contract

This project models two pieces of the buf editor integration in Dafny.

- **`BufContext`** (module `Context`, `context.dfy`) is the shared extension context. It holds:
  - the language server's `ServerStatus`;
  - a `busy` flag;
  - the detected buf binary (`BufVersion`);
  - the `module` name, the `bufFiles` registry and the server output channel.

  Each write goes through a setter, and the setter decides whether the "context changed" event fires:
  - `status` fires only on a change;
  - `busy` fires on every write;
  - `buf` fires only when the reference changes.

  The context is an immutable record. Each setter is a pure function that returns the next record and the number of notifications it fired. A log of writes (`Write`) and its fold (`Run`) give the event-log view.
- **`bufGenerate`** (module `BufGenerate`, `buf_generate.dfy`) is the command that runs `buf generate` and reports the outcome. It is a pure function. Its inputs are the context, the workspace root and the subprocess result, which is either `Resolved(stdout, stderr)` or `Rejected(message)`. Its outputs are the subprocess calls it made and the log entries it wrote. `Generate` is specified by the assertions of the command's unit test (`test/unit/commands/buf-generate.test.ts`) and by `Classify`, which fixes the order of the checks: a missing binary first, then a launch failure, then non-empty stderr, otherwise success. `Rejected` and `Resolved` exclude each other, so the order between the launch-failure and stderr checks is not observable.

Names and representation:
- `module` is a Dafny keyword, so the `module` fields are called `moduleName`.
- Object identity of a `BufVersion` is an explicit `ref` field. The model assumes every construction goes through `NewBufVersion`, with the first free reference threaded from one construction to the next, as `NewBufVersions` does. Under that assumption two values with the same `ref` are the same object, so whole-value comparison in the model coincides with the source's `!==`. Two descriptors built separately from the same path are different (`ThreadedConstructionsAreDistinct`). Nothing in the types enforces the threading: calling `NewBufVersion` twice with the same counter yields equal descriptors.
- The getters are the record's fields: reading a field has no side effect.

## Model

| member | source | states |
|---|---|---|
| Context.Fresh | src/context.ts:23-31 | a new context is stopped, not busy, has no binary, an empty module name and empty file registry, and an open output channel |
| Context.NewBufVersion | test/unit/commands/buf-generate.test.ts:82 | a constructed descriptor keeps its path and range and receives a reference no earlier construction received |
| Context.NewBufVersions | test/unit/commands/buf-generate.test.ts:82-110 | a modelling device for object identity (the source's constructions each run in their own test): a series of constructions yields one descriptor per request, descriptor i keeping the path and range of request i, each with a reference taken from the range the series handed out |
| Context.ThreadedConstructionsAreDistinct | src/context.ts:55-60 | any two descriptors built by threaded constructions have different references and are different objects, even when built from the same path |
| Context.SetStatus | src/context.ts:35-44 | the status getter then returns the written value, nothing else changes, and exactly one notification fires iff the value differed |
| Context.SetBusy | src/context.ts:46-53 | the busy getter then returns the written value, nothing else changes, and exactly one notification fires even when the value was already stored |
| Context.SetBuf | src/context.ts:55-64 | the buf getter then returns the written reference, nothing else changes, and exactly one notification fires iff the reference differed (absent vs present included) |
| Context.Dispose | src/context.ts:70-72 | disposal releases only the output channel and fires no notification |
| Context.Apply | src/context.ts:35-60 | a single write fires at most once, and fires nothing exactly when it is not a busy write and leaves the context as it was |
| Context.Run | src/context.ts:35-60 | a log of writes fires at most once per write and never touches the module name, the file registry or the output channel |
| Context.RunAppend | src/context.ts:35-60 | running two logs in sequence equals running their concatenation, notifications adding up |
| Context.RunKeepsLastWrites | src/context.ts:35-64 | after any log, each getter returns the last value written through its own setter, or the earlier value if there was none |
| Context.RunFiresForEveryBusyWrite | src/context.ts:46-49 | a log fires at least once per busy write |
| Context.SilentRunChangesNothing | src/context.ts:35-60 | a log that fired nothing contains no busy write and left the context unchanged |
| Context.RepeatedWrites | src/context.ts:35-60 | writing the same status or reference twice notifies the second time not at all; writing the same busy value twice notifies both times |
| Context.SeparateConstructionsNotify | src/context.ts:55-60 | two descriptors built separately from the same path are distinct, and replacing one by the other notifies |
| Context.FreshContextFirstWrites | src/context.ts:29-40 | in a fresh context writing the stopped status or an absent binary is silent, any other status notifies once, and writing busy = false still notifies |
| Context.DisposeIdempotent | src/context.ts:70-72 | disposing twice is the same as disposing once, and disposal keeps status, busy and buf |
| BufGenerate.Classify | test/unit/commands/buf-generate.test.ts:73-120 | the outcome taxonomy, checked in order: no binary (ToolNotFound), launch rejection (ExecutionFailed), non-empty stderr whatever the exit status (ToolReportedError), otherwise Succeeded |
| BufGenerate.ErrorText | test/unit/commands/buf-generate.test.ts:104 | an error line is the fixed prefix followed by the failure text |
| BufGenerate.FailureOf | test/unit/commands/buf-generate.test.ts:104-117 | reading the failure text back from a prefixed line inverts ErrorText |
| BufGenerate.Generate | test/unit/commands/buf-generate.test.ts:73-120 | without a binary: no subprocess call and exactly one error. With one: exactly one call of (binary path, ["generate"], workspace root). At most one log entry, and exactly one error iff the outcome is not success. Both failure channels log the prefixed failure text. A success with output logs the stdout at info level |
| BufGenerate.ReportedFailureIsRecoverable | test/unit/commands/buf-generate.test.ts:96-120 | the failure text of a rejected launch or of stderr output can be read back from the logged error line |
| BufGenerate.ErrorTextInjective | test/unit/commands/buf-generate.test.ts:104-117 | two error lines are equal iff their failure texts are equal |
| BufGenerate.FailureChannelsShareReport | test/unit/commands/buf-generate.test.ts:96-120 | stderr output and a launch failure carrying the same text produce the same calls and log |
| BufGenerate.GenerateRunsLastStoredBinary | test/unit/commands/buf-generate.test.ts:81-92 | after any log of writes, the command runs the binary that the last `buf` write stored, and runs nothing when that write stored no binary |

## Left out

- The change-notification event itself (`onDidChangeContext`, the emitter, subscribing and unsubscribing) belongs to the editor host. A notification is a count here.
- The `client` field (the language-server client) and the language-server protocol are not modelled.
- The output channel is reduced to an open/disposed flag. Creating it and writing to it are host calls. A second `dispose()` calls the channel's own `dispose()` again; the model's idempotence is that of the flag and relies on the host call being harmless when repeated.
- Writes to `module` and `bufFiles` come from code outside this model. The model only shows that the setters never touch them.
- Parsing of version strings and version ranges is not modelled. The range is opaque text.
- Registering the command and the asynchronous subprocess call are not modelled. The subprocess result is an input value.
- BufGenerate.Generate: the wording of the "buf not installed" error is a parameter (`notInstalled`), because only the fact that one error is logged is fixed.
- BufGenerate.Generate: a success with empty stdout writes no log entry in the model, but the contract leaves that case open apart from "no error". Whether such an entry is written is not fixed.
- BufGenerate.Generate returns no context, so the command never writes `busy`; the command's unit test (test/unit/commands/buf-generate.test.ts) does not observe `busy` either.
- BufGenerate.Generate: the single-entry reporting (`|e.log| <= 1`, no error on success, the success log being exactly the stdout) is something the model assumes beyond what the command's unit test asserts. The test checks only that the stdout was logged at info level (buf-generate.test.ts:93), not that it was the only entry.
- `test/unit/status.test.ts` checks only status-bar wiring and has no logic to state.
