/** `Sources/ExecutorCore/Commands/Clean.swift`: the cleanup stage. It stops the
    job's VM and deletes it, ignoring whether either command succeeds. */
module Clean {
  import opened SystemCore
  import opened TartService
  import opened Extensions
  import opened Commands

  /** The hook from the trace before it: its outcome and the trace after it. */
  function CleanSpec(env: Environment, trace: seq<Effect>): (HookOutcome, seq<Effect>)
  {
    (Finished, trace + [Exec(StopArgs(VmID(env))), Exec(DeleteArgs(VmID(env)))])
  }

  /** `Clean.run()`: both commands run under `try?`, so neither failure is seen. */
  method Run(system: System, env: Environment) returns (outcome: HookOutcome)
    modifies system
    ensures (outcome, system.trace) == CleanSpec(env, old(system.trace))
  {
    ghost var before := system.trace;
    var vmID := VmID(env);
    var stopped := system.Run(StopArgs(vmID));
    var deleted := system.Run(DeleteArgs(vmID));
    outcome := Finished;
    assert before + [Exec(StopArgs(vmID))] + [Exec(DeleteArgs(vmID))] == before + [Exec(StopArgs(vmID)), Exec(DeleteArgs(vmID))];
  }

  /** Whatever happened before, cleanup finishes normally after exactly two
      commands: stopping the job's VM with a 30-second timeout, then deleting
      it. */
  lemma {:induction false} CleanStopsThenDeletes(env: Environment, trace: seq<Effect>)
    ensures CleanSpec(env, trace).0 == Finished
    ensures CleanSpec(env, trace).1 == trace + [
      Exec(["tart", "stop", "-t", "30", VmID(env)]),
      Exec(["tart", "delete", VmID(env)])]
  {
    StopArgsTimeout(VmID(env), DefaultStopTimeoutSeconds);
  }
}
