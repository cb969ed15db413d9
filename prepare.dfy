/** `Sources/ExecutorCore/Commands/Prepare.swift`: the prepare stage. It clones
    the job image into a VM named after the job, starts that VM, asks for its
    address and then probes it over `ssh` once a second, at most thirty times,
    until a probe succeeds. Each failed step ends the hook with its own exit
    status.

    `TartService.ip` returns nothing, so the address the probes connect to is
    not produced by the hook: it is a parameter here. */
module Prepare {
  import opened Wrappers
  import opened SystemCore
  import opened Systeming
  import opened TartService
  import opened Extensions
  import opened Commands

  /** The number of probe rounds and the seconds `ip` waits for an address. */
  const ProbeRounds: int := 30
  const IpWaitSeconds: int := 10

  /** The probe: `ssh admin@address` with every other option at its default. */
  function ProbeArgs(address: string): seq<string>
  {
    SshArgs(None, DefaultUser, DefaultTimeoutSeconds, address, None)
  }

  /** The share the VM is started with: the host's `~/.ssh` under the name `ssh`. */
  function SshShare(): DirMount
  {
    DirMount("ssh", "~/.ssh")
  }

  function CloneCommand(image: string, vmID: string): seq<string>
  {
    CloneArgs(image, vmID, false)
  }

  function StartCommand(vmID: string): seq<string>
  {
    RunArgs(vmID, false, [], [SshShare()], Some(Softnet))
  }

  function IpCommand(vmID: string): seq<string>
  {
    IpArgs(vmID, IpWaitSeconds)
  }

  /** The effects of `n` probe rounds that were neither cancelled nor
      successful: a one-second sleep, then a probe, each time. */
  function Rounds(probe: seq<string>, n: nat): seq<Effect>
  {
    if n == 0 then [] else [Sleep(1), Exec(probe)] + Rounds(probe, n - 1)
  }

  /** `n` rounds are `n` probes, each right after its own one-second sleep. */
  lemma {:induction false} RoundsShape(probe: seq<string>, n: nat)
    ensures |Rounds(probe, n)| == 2 * n
    ensures forall j :: 0 <= j < n ==> Rounds(probe, n)[2 * j] == Sleep(1) && Rounds(probe, n)[2 * j + 1] == Exec(probe)
    decreases n
  {
    if n > 0 {
      RoundsShape(probe, n - 1);
      var r := Rounds(probe, n);
      assert r == [Sleep(1), Exec(probe)] + Rounds(probe, n - 1);
      forall j | 0 <= j < n
        ensures r[2 * j] == Sleep(1) && r[2 * j + 1] == Exec(probe)
      {
        if j > 0 {
          assert r[2 * j] == Rounds(probe, n - 1)[2 * (j - 1)];
          assert r[2 * j + 1] == Rounds(probe, n - 1)[2 * (j - 1) + 1];
        }
      }
    }
  }

  /** The probe loop from round `i` on, after `trace`: how it ends and the trace
      it leaves. A cancelled sleep exits with 5; a probe that succeeds ends the
      loop; the check for round 30 sits inside a loop whose last round is 29. */
  function Readiness(o: Oracle, probe: seq<string>, i: int, trace: seq<Effect>): (HookOutcome, seq<Effect>)
    decreases ProbeRounds - i
  {
    if i >= ProbeRounds then (Finished, trace)
    else if o.sleepCancelled(trace) then (Exited(5), trace + [Sleep(1)])
    else
      var slept := trace + [Sleep(1)];
      var probed := slept + [Exec(probe)];
      if Succeeded(Launch(o, slept, probe).exitStatus) then (Finished, probed)
      else if i == ProbeRounds then (Exited(6), probed)
      else Readiness(o, probe, i + 1, probed)
  }

  /** The whole hook, from the trace before it: its outcome and the trace after it. */
  function PrepareSpec(o: Oracle, env: Environment, address: string, trace: seq<Effect>): (HookOutcome, seq<Effect>)
  {
    match VmImage(env)
    case None => (Exited(2), trace)
    case Some(image) =>
      var id := VmID(env);
      var cloned := trace + [Exec(CloneCommand(image, id))];
      if !Succeeded(Launch(o, trace, CloneCommand(image, id)).exitStatus) then (Exited(3), cloned)
      else
        var started := cloned + [Exec(StartCommand(id))];
        if !Succeeded(Launch(o, cloned, StartCommand(id)).exitStatus) then (Exited(4), started)
        else
          var addressed := started + [Exec(IpCommand(id))];
          if !Succeeded(Launch(o, started, IpCommand(id)).exitStatus) then (Exited(7), addressed)
          else Readiness(o, ProbeArgs(address), 0, addressed)
  }

  /** Round `j` after `trace` is neither cancelled nor successful. */
  predicate RoundFails(o: Oracle, probe: seq<string>, trace: seq<Effect>)
  {
    !o.sleepCancelled(trace) && !Succeeded(Launch(o, trace + [Sleep(1)], probe).exitStatus)
  }

  /** The first `k` rounds after `trace` all fail. */
  predicate RoundsFail(o: Oracle, probe: seq<string>, trace: seq<Effect>, k: nat)
    decreases k
  {
    k == 0 || (RoundFails(o, probe, trace) && RoundsFail(o, probe, trace + [Sleep(1), Exec(probe)], k - 1))
  }

  lemma {:induction false} RoundsCons(probe: seq<string>, trace: seq<Effect>, j: nat)
    ensures trace + [Sleep(1), Exec(probe)] + Rounds(probe, j) == trace + Rounds(probe, j + 1)
  {
  }

  /** Rounds that fail just sleep and probe: the loop carries on, `k` rounds later. */
  lemma {:induction false} ReadinessSkip(o: Oracle, probe: seq<string>, i: int, trace: seq<Effect>, k: nat)
    requires 0 <= i && i + k <= ProbeRounds
    requires RoundsFail(o, probe, trace, k)
    ensures Readiness(o, probe, i, trace) == Readiness(o, probe, i + k, trace + Rounds(probe, k))
    decreases k
  {
    if k == 0 {
      assert trace + Rounds(probe, 0) == trace;
    } else {
      var next := trace + [Sleep(1), Exec(probe)];
      assert Readiness(o, probe, i, trace) == Readiness(o, probe, i + 1, next) by {
        assert trace + [Sleep(1)] + [Exec(probe)] == next;
      }
      ReadinessSkip(o, probe, i + 1, next, k - 1);
      RoundsCons(probe, trace, k - 1);
    }
  }

  /** When the first `k` rounds fail and round `k` connects, the hook finishes
      right after that probe. */
  lemma {:induction false} ReadinessFirstSuccess(o: Oracle, probe: seq<string>, trace: seq<Effect>, k: nat)
    requires k < ProbeRounds
    requires RoundsFail(o, probe, trace, k)
    requires !o.sleepCancelled(trace + Rounds(probe, k))
    requires Succeeded(Launch(o, trace + Rounds(probe, k) + [Sleep(1)], probe).exitStatus)
    ensures Readiness(o, probe, 0, trace) == (Finished, trace + Rounds(probe, k + 1))
  {
    var u := trace + Rounds(probe, k);
    ReadinessSkip(o, probe, 0, trace, k);
    ReadinessRound(o, probe, k, u);
    assert trace + Rounds(probe, k + 1) == u + [Sleep(1)] + [Exec(probe)] by {
      RoundsAppend(probe, k);
    }
  }

  /** When the first `k` rounds fail and the sleep of round `k` is cancelled, the
      hook exits with status 5. */
  lemma {:induction false} ReadinessCancelled(o: Oracle, probe: seq<string>, trace: seq<Effect>, k: nat)
    requires k < ProbeRounds
    requires RoundsFail(o, probe, trace, k)
    requires o.sleepCancelled(trace + Rounds(probe, k))
    ensures Readiness(o, probe, 0, trace) == (Exited(5), trace + Rounds(probe, k) + [Sleep(1)])
  {
    ReadinessSkip(o, probe, 0, trace, k);
    ReadinessRound(o, probe, k, trace + Rounds(probe, k));
  }

  /** When all thirty probes fail the loop runs out and the hook finishes
      normally: status 6 is never reached. */
  lemma {:induction false} ReadinessAllFail(o: Oracle, probe: seq<string>, trace: seq<Effect>)
    requires RoundsFail(o, probe, trace, ProbeRounds)
    ensures Readiness(o, probe, 0, trace) == (Finished, trace + Rounds(probe, ProbeRounds))
  {
    ReadinessSkip(o, probe, 0, trace, ProbeRounds);
  }

  lemma {:induction false} RoundsAppend(probe: seq<string>, k: nat)
    ensures Rounds(probe, k + 1) == Rounds(probe, k) + [Sleep(1), Exec(probe)]
    decreases k
  {
    if k > 0 {
      RoundsAppend(probe, k - 1);
    }
  }

  /** The loop ends either normally or with status 5, never with 6; it only adds
      to the trace, two effects per round at most. */
  lemma {:induction false} ReadinessOutcome(o: Oracle, probe: seq<string>, i: int, trace: seq<Effect>)
    requires 0 <= i <= ProbeRounds
    ensures Readiness(o, probe, i, trace).0 in {Finished, Exited(5)}
    ensures trace <= Readiness(o, probe, i, trace).1
    ensures |Readiness(o, probe, i, trace).1| <= |trace| + 2 * (ProbeRounds - i)
    decreases ProbeRounds - i
  {
    if i < ProbeRounds && !o.sleepCancelled(trace) {
      var probed := trace + [Sleep(1)] + [Exec(probe)];
      if !Succeeded(Launch(o, trace + [Sleep(1)], probe).exitStatus) {
        ReadinessOutcome(o, probe, i + 1, probed);
      }
    }
  }

  /** The hook ends normally or with status 2, 3, 4, 5 or 7; never with 6 and
      never by throwing. It only adds to the trace, and without a job image it
      exits with 2 before running anything. */
  lemma {:induction false} PrepareOutcomes(o: Oracle, env: Environment, address: string, trace: seq<Effect>)
    ensures PrepareSpec(o, env, address, trace).0 in {Finished, Exited(2), Exited(3), Exited(4), Exited(5), Exited(7)}
    ensures trace <= PrepareSpec(o, env, address, trace).1
    ensures PrepareSpec(o, env, address, trace).0 == Exited(2) <==> JobImageKey !in env
    ensures JobImageKey !in env ==> PrepareSpec(o, env, address, trace).1 == trace
  {
    if JobImageKey in env {
      var id := VmID(env);
      var cloned := trace + [Exec(CloneCommand(env[JobImageKey], id))];
      var started := cloned + [Exec(StartCommand(id))];
      var addressed := started + [Exec(IpCommand(id))];
      ReadinessOutcome(o, ProbeArgs(address), 0, addressed);
    }
  }

  /** With a job image, each of the three commands is run only when the one
      before it succeeded, and the first to fail decides the status: 3 for
      `clone`, 4 for `run`, 7 for `ip`. When all three succeed the probe loop
      decides the rest. */
  lemma {:induction false} PrepareSteps(o: Oracle, env: Environment, address: string, trace: seq<Effect>)
    requires JobImageKey in env
    ensures
      var id := VmID(env);
      var clone, start, ip := CloneCommand(env[JobImageKey], id), StartCommand(id), IpCommand(id);
      var cloned := trace + [Exec(clone)];
      var started := cloned + [Exec(start)];
      var addressed := started + [Exec(ip)];
      var cloneOk := Succeeded(Launch(o, trace, clone).exitStatus);
      var startOk := Succeeded(Launch(o, cloned, start).exitStatus);
      var ipOk := Succeeded(Launch(o, started, ip).exitStatus);
      var r := PrepareSpec(o, env, address, trace);
      (r.0 == Exited(3) <==> !cloneOk) && (!cloneOk ==> r.1 == cloned)
      && (r.0 == Exited(4) <==> cloneOk && !startOk) && (cloneOk && !startOk ==> r.1 == started)
      && (r.0 == Exited(7) <==> cloneOk && startOk && !ipOk) && (cloneOk && startOk && !ipOk ==> r.1 == addressed)
      && (cloneOk && startOk && ipOk ==> r == Readiness(o, ProbeArgs(address), 0, addressed))
  {
    var id := VmID(env);
    var cloned := trace + [Exec(CloneCommand(env[JobImageKey], id))];
    var started := cloned + [Exec(StartCommand(id))];
    var addressed := started + [Exec(IpCommand(id))];
    ReadinessOutcome(o, ProbeArgs(address), 0, addressed);
  }

  /** One round of the loop. */
  lemma {:induction false} ReadinessRound(o: Oracle, probe: seq<string>, i: int, trace: seq<Effect>)
    requires 0 <= i < ProbeRounds
    ensures Readiness(o, probe, i, trace) ==
      if o.sleepCancelled(trace) then (Exited(5), trace + [Sleep(1)])
      else if Succeeded(Launch(o, trace + [Sleep(1)], probe).exitStatus) then (Finished, trace + [Sleep(1)] + [Exec(probe)])
      else Readiness(o, probe, i + 1, trace + [Sleep(1)] + [Exec(probe)])
  {
  }

  /** Every command the hook runs names a program, so its failure can be classified. */
  lemma {:induction false} CommandsNameable(image: string, vmID: string, address: string)
    requires vmID != ""
    ensures Nameable(CloneCommand(image, vmID)) && Nameable(StartCommand(vmID))
    ensures Nameable(IpCommand(vmID)) && Nameable(ProbeArgs(address))
  {
    CloneArgsAsWritten(image, vmID, false);
    PrepareStartArgs(vmID);
    SshArgsShape(None, DefaultUser, DefaultTimeoutSeconds, address, None);
  }

  /** `Task.sleep(for: .seconds(seconds))`: the sleep happens; it reports false
      when it was cancelled, which is when the sleep throws. */
  method TaskSleep(system: System, seconds: int) returns (completed: bool)
    modifies system
    ensures system.trace == old(system.trace) + [Sleep(seconds)]
    ensures completed == !system.oracle.sleepCancelled(old(system.trace))
  {
    completed := !system.oracle.sleepCancelled(system.trace);
    system.trace := system.trace + [Sleep(seconds)];
  }

  /** `Prepare.run()`. */
  method Run(system: System, env: Environment, address: string) returns (outcome: HookOutcome)
    modifies system
    ensures (outcome, system.trace) == PrepareSpec(system.oracle, env, address, old(system.trace))
  {
    var image := VmImage(env);
    if image.None? {
      return Exited(2);
    }
    var vmID := VmID(env);
    CommandsNameable(image.value, vmID, address);
    var cloned := system.Run(CloneCommand(image.value, vmID));
    if cloned.Fail? {
      return Exited(3);
    }
    var started := system.Run(StartCommand(vmID));
    if started.Fail? {
      return Exited(4);
    }
    var addressed := system.Run(IpCommand(vmID));
    if addressed.Fail? {
      return Exited(7);
    }
    outcome := AwaitSsh(system, address);
  }

  /** The probe loop of `Prepare.run()`. */
  method AwaitSsh(system: System, address: string) returns (outcome: HookOutcome)
    modifies system
    ensures (outcome, system.trace) == Readiness(system.oracle, ProbeArgs(address), 0, old(system.trace))
  {
    ghost var before := system.trace;
    for i := 0 to ProbeRounds
      invariant Readiness(system.oracle, ProbeArgs(address), i, system.trace) == Readiness(system.oracle, ProbeArgs(address), 0, before)
    {
      var ended := ProbeRound(system, address, i);
      if ended.Some? {
        return ended.value;
      }
    }
    return Finished;
  }

  /** One pass through the body of the probe loop: the outcome the hook ends
      with, or nothing when the loop goes on. */
  method ProbeRound(system: System, address: string, i: int) returns (ended: Option<HookOutcome>)
    requires 0 <= i < ProbeRounds
    modifies system
    ensures ended.Some? ==> (ended.value, system.trace) == Readiness(system.oracle, ProbeArgs(address), i, old(system.trace))
    ensures ended.None? ==>
      Readiness(system.oracle, ProbeArgs(address), i + 1, system.trace) == Readiness(system.oracle, ProbeArgs(address), i, old(system.trace))
  {
    ReadinessRound(system.oracle, ProbeArgs(address), i, system.trace);
    var awake := TaskSleep(system, 1);
    if !awake {
      return Some(Exited(5));
    }
    var up := Ssh(system, host := address);
    if up {
      return Some(Finished);
    }
    if i == ProbeRounds {
      return Some(Exited(6));
    }
    return None;
  }
}
