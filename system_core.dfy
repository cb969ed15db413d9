/** The process layer of `Sources/System/System.swift`: how a finished process is
    classified (`throwIfErrored`, `command()`), what `capture`, `run` and `which`
    return, how `System.process` splits a command, and the shared `System`
    instance as an object that records every command it runs.

    Launching and waiting for a process is not modelled: the outcome of each
    command is given by an oracle, which may depend on everything that happened
    before (so a probe can fail a few times and then succeed). */
module SystemCore {
  import opened Wrappers
  import opened Strings

  newtype byte = x: int | 0 <= x < 256

  /** The path of the `xcrun` launcher, whose second token names the real tool. */
  const Xcrun: string := "/usr/bin/xcrun"

  /** How a process ended: it exited with a code, or a signal killed it. */
  datatype ExitStatus = Terminated(code: int) | Signalled(signal: int)

  /** The record of a finished process: the command it ran, how it ended, what it
      wrote to standard output (already decoded as text) and standard error. */
  datatype ProcessResult = ProcessResult(
    arguments: seq<string>,
    exitStatus: ExitStatus,
    output: string,
    stderrOutput: seq<byte>)

  /** The error every failed command throws. */
  datatype SystemError = SystemError(command: string, code: int, standardError: seq<byte>)

  predicate Succeeded(status: ExitStatus)
  {
    status == Terminated(0)
  }

  /** `command()` can name the command: there is a first token and, when it is
      `xcrun`, a second one. */
  predicate Nameable(arguments: seq<string>)
  {
    |arguments| > 0 && (arguments[0] == Xcrun ==> |arguments| > 1)
  }

  /** `throwIfErrored` only asks for the command name when the process failed. */
  predicate Classifiable(r: ProcessResult)
  {
    Succeeded(r.exitStatus) || Nameable(r.arguments)
  }

  /** `command()`: the tool a command ran, looking through an `xcrun` prefix. */
  function CommandName(arguments: seq<string>): (name: string)
    requires Nameable(arguments)
    ensures arguments[0] == Xcrun ==> name == arguments[1]
    ensures arguments[0] != Xcrun ==> name == arguments[0]
  {
    var first := arguments[0];
    if first == Xcrun then arguments[1] else first
  }

  /** The number a failed process reports: its exit code, or the signal that killed it. */
  function StatusCode(status: ExitStatus): int
  {
    match status
    case Terminated(code) => code
    case Signalled(signal) => signal
  }

  /** `throwIfErrored`: a signal is always an error, exit code 0 never is, any
      other exit code is; the error carries the command name, the code or signal
      and the whole standard error. */
  function ThrowIfErrored(r: ProcessResult): (o: Outcome<SystemError>)
    requires Classifiable(r)
    ensures o.Pass? <==> Succeeded(r.exitStatus)
    ensures r.exitStatus.Signalled? ==> o == Fail(SystemError(CommandName(r.arguments), r.exitStatus.signal, r.stderrOutput))
    ensures r.exitStatus.Terminated? && r.exitStatus.code != 0 ==>
      o == Fail(SystemError(CommandName(r.arguments), r.exitStatus.code, r.stderrOutput))
  {
    match r.exitStatus
    case Signalled(code) =>
      Fail(SystemError(CommandName(r.arguments), code, r.stderrOutput))
    case Terminated(code) =>
      if code != 0 then Fail(SystemError(CommandName(r.arguments), code, r.stderrOutput)) else Pass
  }

  /** What `capture` makes of a finished process: its standard output, untrimmed,
      when it succeeded, and the error `throwIfErrored` throws otherwise. */
  function CaptureResult(r: ProcessResult): (c: Result<string, SystemError>)
    requires Classifiable(r)
    ensures c.Success? <==> Succeeded(r.exitStatus)
    ensures c.Success? ==> c.value == r.output
    ensures c.Failure? ==> c.error == SystemError(CommandName(r.arguments), StatusCode(r.exitStatus), r.stderrOutput)
  {
    match ThrowIfErrored(r)
    case Fail(e) => Failure(e)
    case Pass => Success(r.output)
  }

  /** What `run` makes of a finished process: `capture` with the output dropped. */
  function RunResult(r: ProcessResult): (o: Outcome<SystemError>)
    requires Classifiable(r)
    ensures o.Pass? <==> CaptureResult(r).Success?
    ensures o.Fail? ==> CaptureResult(r) == Failure(o.error)
  {
    match CaptureResult(r)
    case Success(_) => Pass
    case Failure(e) => Fail(e)
  }

  /** The command `which(name)` captures. */
  function WhichArgs(name: string): seq<string>
  {
    ["/usr/bin/env", "which", name]
  }

  /** What `which` makes of the finished `which` process: the captured path with
      the surrounding whitespace and newlines removed. */
  function WhichResult(r: ProcessResult): (w: Result<string, SystemError>)
    requires Classifiable(r)
    ensures w.Success? <==> Succeeded(r.exitStatus)
    ensures w.Success? ==> w.value == Trim(r.output)
    ensures w.Success? ==> w.value == [] || (!IsWhitespace(w.value[0]) && !IsWhitespace(w.value[|w.value| - 1]))
    ensures w.Failure? ==> CaptureResult(r) == Failure(w.error)
  {
    match CaptureResult(r)
    case Success(out) => Success(Trim(out))
    case Failure(e) => Failure(e)
  }

  /** A `Foundation.Process` as `System.process` configures it. */
  datatype ProcessSpec = ProcessSpec(executablePath: string, arguments: seq<string>)

  /** `System.process`: the first token is the executable, the rest its arguments. */
  function Process(arguments: seq<string>): (p: ProcessSpec)
    requires |arguments| > 0
    ensures [p.executablePath] + p.arguments == arguments
  {
    ProcessSpec(arguments[0], arguments[1..])
  }

  /** Something a hook did that can be observed from outside: ran a command, or slept. */
  datatype Effect = Exec(command: seq<string>) | Sleep(seconds: int)

  /** How a launched command ends, before it is paired with its arguments. */
  datatype Termination = Termination(exitStatus: ExitStatus, output: string, stderrOutput: seq<byte>)

  /** The outside world: how each command ends given everything done before it,
      and whether a sleep started after a given history is cancelled. */
  datatype Oracle = Oracle(
    terminate: (seq<Effect>, seq<string>) -> Termination,
    sleepCancelled: seq<Effect> -> bool)

  /** The finished process of running `arguments` after `history`. */
  function Launch(oracle: Oracle, history: seq<Effect>, arguments: seq<string>): (r: ProcessResult)
    ensures r.arguments == arguments
  {
    var t := oracle.terminate(history, arguments);
    ProcessResult(arguments, t.exitStatus, t.output, t.stderrOutput)
  }

  /** `System.shared`: runs commands synchronously and keeps the trace of every
      effect so far. */
  class System {
    var trace: seq<Effect>
    const oracle: Oracle

    constructor (oracle: Oracle)
      ensures this.oracle == oracle && trace == []
    {
      this.oracle := oracle;
      trace := [];
    }

    /** `capture`: runs the command to completion and returns its standard output,
        or throws the classified error. */
    method Capture(arguments: seq<string>) returns (c: Result<string, SystemError>)
      requires |arguments| > 0
      requires Classifiable(Launch(oracle, trace, arguments))
      modifies this
      ensures trace == old(trace) + [Exec(arguments)]
      ensures c == CaptureResult(Launch(oracle, old(trace), arguments))
    {
      var result := Launch(oracle, trace, arguments);
      trace := trace + [Exec(arguments)];
      var status := ThrowIfErrored(result);
      if status.Fail? {
        return Failure(status.error);
      }
      c := Success(result.output);
    }

    /** `run`: `capture` with the output discarded. */
    method Run(arguments: seq<string>) returns (o: Outcome<SystemError>)
      requires |arguments| > 0
      requires Classifiable(Launch(oracle, trace, arguments))
      modifies this
      ensures trace == old(trace) + [Exec(arguments)]
      ensures o == RunResult(Launch(oracle, old(trace), arguments))
    {
      var c := Capture(arguments);
      o := if c.Success? then Pass else Fail(c.error);
    }

    /** `which`: captures `/usr/bin/env which name` and trims the answer. */
    method Which(name: string) returns (w: Result<string, SystemError>)
      modifies this
      ensures trace == old(trace) + [Exec(WhichArgs(name))]
      ensures w == WhichResult(Launch(oracle, old(trace), WhichArgs(name)))
    {
      var c := Capture(WhichArgs(name));
      w := if c.Success? then Success(Trim(c.value)) else Failure(c.error);
    }
  }
}
