/** `Sources/ExecutorCore/Commands/Run.swift`: the run stage. It asks `tart` for
    the VM's address and hands the job script, taken from the second
    command-line argument (`arguments[1]`), to `ssh` on that address.

    `TartService.ip` returns nothing, so the address `ssh` connects to is not
    produced by the hook: it is a parameter here. */
module Run {
  import opened Wrappers
  import opened Strings
  import opened SystemCore
  import opened Systeming
  import opened TartService
  import opened Extensions
  import opened Commands

  /** The `ssh` command that runs the job script on the VM. */
  function ScriptArgs(address: string, script: string): seq<string>
  {
    SshArgs(None, DefaultUser, DefaultTimeoutSeconds, address, Some(script))
  }

  /** The hook from the trace before it: its outcome and the trace after it. */
  function RunSpec(o: Oracle, env: Environment, address: string, script: string, trace: seq<Effect>): (HookOutcome, seq<Effect>)
  {
    var ip := IpArgs(VmID(env), DefaultIpWaitSeconds);
    var asked := trace + [Exec(ip)];
    var answer := Launch(o, trace, ip);
    if !Succeeded(answer.exitStatus) then
      (Threw(ProcessFailed(SystemError("tart", StatusCode(answer.exitStatus), answer.stderrOutput))), asked)
    else if Succeeded(Launch(o, asked, ScriptArgs(address, script)).exitStatus) then
      (Finished, asked + [Exec(ScriptArgs(address, script))])
    else
      (Threw(PipelineFailed), asked + [Exec(ScriptArgs(address, script))])
  }

  /** `Run.run()`; `arguments` is the process's command line, whose second entry
      is the job script. */
  method Run(system: System, env: Environment, address: string, arguments: seq<string>) returns (outcome: HookOutcome)
    requires |arguments| >= 2
    modifies system
    ensures (outcome, system.trace) == RunSpec(system.oracle, env, address, arguments[1], old(system.trace))
  {
    var vmID := VmID(env);
    var ip := system.Run(IpArgs(vmID));
    if ip.Fail? {
      return Threw(ProcessFailed(ip.error));
    }
    var isSuccess := Ssh(system, host := address, script := Some(arguments[1]));
    if !isSuccess {
      return Threw(PipelineFailed);
    }
    return Finished;
  }

  /** The script runs only when `ip` succeeded; a failing `ip` is thrown as the
      `tart` error with its status and standard error; a failing script is
      thrown as `PipelineFailed`; the hook finishes normally exactly when both
      succeed. */
  lemma {:induction false} RunOutcomes(o: Oracle, env: Environment, address: string, script: string, trace: seq<Effect>)
    ensures
      var ip := IpArgs(VmID(env));
      var asked := trace + [Exec(ip)];
      var answer := Launch(o, trace, ip);
      var scriptOk := Succeeded(Launch(o, asked, ScriptArgs(address, script)).exitStatus);
      var r := RunSpec(o, env, address, script, trace);
      (r.0.Threw? && r.0.error.ProcessFailed? <==> !Succeeded(answer.exitStatus))
      && (!Succeeded(answer.exitStatus) ==> r == (Threw(ProcessFailed(CaptureResult(answer).error)), asked))
      && (r.0 == Threw(PipelineFailed) <==> Succeeded(answer.exitStatus) && !scriptOk)
      && (r.0 == Finished <==> Succeeded(answer.exitStatus) && scriptOk)
      && (Succeeded(answer.exitStatus) ==> r.1 == asked + [Exec(ScriptArgs(address, script))])
  {
    var ip := IpArgs(VmID(env));
    assert CommandName(ip) == "tart";
  }

  /** The command is the usual probe followed by one `< script` token, which
      `ssh admin@address` forwards as the command for the remote shell. */
  lemma {:induction false} ScriptArgsShape(address: string, script: string)
    ensures ScriptArgs(address, script) ==
      ["ssh", "-o", "StrictHostKeyChecking=no", "-o", "ConnectTimeout=5", "admin@" + address, "< " + script]
  {
    SshArgsShape(None, DefaultUser, DefaultTimeoutSeconds, address, Some(script));
    assert IntToString(DefaultTimeoutSeconds) == [Digit(5)] == "5";
    assert "ConnectTimeout=" + "5" == "ConnectTimeout=5";
    assert DefaultUser + "@" + address == "admin@" + address;
  }
}
