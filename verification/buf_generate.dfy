/**
 * The `buf generate` command: it reads the detected buf binary from the
 * context, runs `buf generate` in the workspace root and reports the outcome
 * on the extension log.
 *
 * The subprocess result is an input here, and the command is a pure function
 * from (context, workspace root, subprocess result) to the subprocess calls it
 * made and the log entries it wrote.
 */
module BufGenerate {
  import opened Wrappers
  import opened Context

  /** What the subprocess call produced: buffered output on exit, or the
      message of the failure that prevented it from running. */
  datatype ExecOutcome =
    | Resolved(stdout: string, stderr: string)
    | Rejected(message: string)

  /** One subprocess call: executable path, argument list, working directory. */
  datatype ExecCall = ExecCall(file: string, args: seq<string>, cwd: Option<string>)

  datatype Level = Info | Error

  datatype LogEntry = LogEntry(level: Level, text: string)

  /** Everything the command did that a caller can observe. */
  datatype Effects = Effects(calls: seq<ExecCall>, log: seq<LogEntry>)

  /** The outcome taxonomy of one invocation. */
  datatype Outcome = ToolNotFound | ExecutionFailed | ToolReportedError | Succeeded

  const ErrorPrefix: string := "Error generating buf: "

  const GenerateArgs: seq<string> := ["generate"]

  /** Classifies an invocation, checking in order: no binary, launch failure,
      output on stderr (whatever the exit status), success. */
  function Classify(buf: Option<BufVersion>, exec: ExecOutcome): (o: Outcome)
    ensures o == ToolNotFound <==> buf.None?
    ensures o == ExecutionFailed <==> buf.Some? && exec.Rejected?
    ensures o == ToolReportedError <==> buf.Some? && exec.Resolved? && exec.stderr != ""
    ensures o == Succeeded <==> buf.Some? && exec.Resolved? && exec.stderr == ""
  {
    if buf.None? then ToolNotFound
    else if exec.Rejected? then ExecutionFailed
    else if exec.stderr != "" then ToolReportedError
    else Succeeded
  }

  /** The text a failure of the subprocess carries: the launch error's message
      or what the tool wrote to stderr. */
  function FailureText(exec: ExecOutcome): string
  {
    match exec
    case Rejected(m) => m
    case Resolved(_, e) => e
  }

  /** The error line reported for a failed subprocess call. */
  function ErrorText(failure: string): (t: string)
    ensures |t| == |ErrorPrefix| + |failure|
    ensures t[..|ErrorPrefix|] == ErrorPrefix
    ensures t[|ErrorPrefix|..] == failure
  {
    ErrorPrefix + failure
  }

  /** Recovers the failure text from an error line: the inverse of ErrorText. */
  function FailureOf(t: string): (failure: string)
    requires |ErrorPrefix| <= |t| && t[..|ErrorPrefix|] == ErrorPrefix
    ensures ErrorText(failure) == t
  {
    t[|ErrorPrefix|..]
  }

  function ErrorCount(log: seq<LogEntry>): nat
  {
    if log == [] then 0
    else (if log[0].level == Error then 1 else 0) + ErrorCount(log[1..])
  }

  /**
   * Runs the command. `workspaceRoot` is the editor's root path, which may be
   * undefined; `notInstalled` is the text of the error reported when no buf
   * binary was detected, whose wording is not fixed here.
   */
  function Generate(ctx: BufContext, workspaceRoot: Option<string>, notInstalled: string,
                    exec: ExecOutcome): (e: Effects)
    // gating: no binary means no subprocess and exactly one error
    ensures ctx.buf.None? ==> e.calls == [] && |e.log| == 1 && e.log[0].level == Error
    // otherwise exactly one call, of the detected binary, in the workspace root
    ensures ctx.buf.Some? ==> e.calls == [ExecCall(ctx.buf.value.path, GenerateArgs, workspaceRoot)]
    // never more than one report per invocation
    ensures |e.log| <= 1
    // an error is reported exactly when the invocation did not succeed
    ensures ErrorCount(e.log) == (if Classify(ctx.buf, exec) == Succeeded then 0 else 1)
    // both subprocess failure channels report the prefixed failure text
    ensures Classify(ctx.buf, exec) in {ExecutionFailed, ToolReportedError} ==>
              e.log == [LogEntry(Error, ErrorText(FailureText(exec)))]
    // success reports what the tool printed at info level
    ensures Classify(ctx.buf, exec) == Succeeded && exec.stdout != "" ==>
              e.log == [LogEntry(Info, exec.stdout)]
  {
    match ctx.buf
    case None => Effects([], [LogEntry(Error, notInstalled)])
    case Some(buf) =>
      var calls := [ExecCall(buf.path, GenerateArgs, workspaceRoot)];
      match exec
      case Rejected(message) => Effects(calls, [LogEntry(Error, ErrorText(message))])
      case Resolved(stdout, stderr) =>
        if stderr != "" then Effects(calls, [LogEntry(Error, ErrorText(stderr))])
        else if stdout != "" then Effects(calls, [LogEntry(Info, stdout)])
        else Effects(calls, [])
  }

  /** The failure text can be read back from the reported error line, so the
      prefix plus the payload determines the report and vice versa. */
  lemma ReportedFailureIsRecoverable(ctx: BufContext, root: Option<string>, notInstalled: string,
                                     exec: ExecOutcome)
    requires Classify(ctx.buf, exec) in {ExecutionFailed, ToolReportedError}
    ensures var t := Generate(ctx, root, notInstalled, exec).log[0].text;
            |ErrorPrefix| <= |t| && t[..|ErrorPrefix|] == ErrorPrefix
            && FailureOf(t) == FailureText(exec)
  {
  }

  /** Two invocations report the same error line exactly when their failure
      texts agree. */
  lemma ErrorTextInjective(f1: string, f2: string)
    ensures ErrorText(f1) == ErrorText(f2) <==> f1 == f2
  {
  }

  /** A launch failure and a tool writing the same text to stderr are reported
      identically: the log does not tell the two channels apart. */
  lemma FailureChannelsShareReport(ctx: BufContext, root: Option<string>, notInstalled: string,
                                   stdout: string, text: string)
    requires ctx.buf.Some? && text != ""
    ensures Generate(ctx, root, notInstalled, Resolved(stdout, text))
         == Generate(ctx, root, notInstalled, Rejected(text))
  {
  }

  /** The command only reads the context: after any log of writes it runs
      the binary that the last `buf` write stored, and runs nothing when that
      write stored no binary. */
  lemma GenerateRunsLastStoredBinary(c: BufContext, ws: seq<Write>, root: Option<string>,
                                     notInstalled: string, exec: ExecOutcome)
    ensures LastBuf(c.buf, ws).Some? ==>
              Generate(Run(c, ws).next, root, notInstalled, exec).calls
              == [ExecCall(LastBuf(c.buf, ws).value.path, GenerateArgs, root)]
    ensures LastBuf(c.buf, ws).None? ==>
              Generate(Run(c, ws).next, root, notInstalled, exec).calls == []
  {
    RunKeepsLastWrites(c, ws);
  }
}
