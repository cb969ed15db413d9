/** `Sources/ExecutorCore/Services/TartService.swift`: the argument strings of
    mounts and networking, and the command each `TartService` operation hands to
    `System.run`. Each operation is that one delegation, so it is modelled by the
    command it builds; running it is `SystemCore.System.Run`. */
module TartService {
  import opened Wrappers
  import opened Strings

  /** `DiskMount`; `isReadOnly` is a `let` with an initial value, so it is always false. */
  datatype DiskMount = DiskMount(path: string) {
    const isReadOnly: bool := false
  }

  /** `DirMount`; `isReadOnly` is always false for the same reason. */
  datatype DirMount = DirMount(name: string, path: string) {
    const isReadOnly: bool := false
  }

  datatype Networking = Bridged(networkInterface: string) | Softnet

  const DefaultStopTimeoutSeconds: int := 30
  const DefaultPruneDays: int := 7
  const DefaultIpWaitSeconds: int := 0

  /** `DiskMount.argumentString`: never carries `:ro`. */
  function DiskArgumentString(d: DiskMount): (s: string)
    ensures s == "--disk=\"" + d.path + "\""
  {
    var parts := ["--disk=", "\"", d.path, if d.isReadOnly then ":ro" else "", "\""];
    assert Concat(parts[4..]) == "\"";
    assert Concat(parts[3..]) == "" + Concat(parts[4..]);
    assert Concat(parts[2..]) == d.path + Concat(parts[3..]);
    assert Concat(parts[1..]) == "\"" + Concat(parts[2..]);
    Concat(parts)
  }

  /** `DirMount.argumentString`: `name:path` in quotes, never carrying `:ro`. */
  function DirArgumentString(d: DirMount): (s: string)
    ensures s == "--dir=\"" + d.name + ":" + d.path + "\""
  {
    var parts := ["--dir=", "\"", d.name, ":", d.path, if d.isReadOnly then ":ro" else "", "\""];
    assert Concat(parts[6..]) == "\"";
    assert Concat(parts[5..]) == "" + Concat(parts[6..]);
    assert Concat(parts[4..]) == d.path + Concat(parts[5..]);
    assert Concat(parts[3..]) == ":" + Concat(parts[4..]);
    assert Concat(parts[2..]) == d.name + Concat(parts[3..]);
    assert Concat(parts[1..]) == "\"" + Concat(parts[2..]);
    Concat(parts)
  }

  /** `Networking.argumentString`. */
  function NetworkArgumentString(n: Networking): (s: string)
    ensures |s| > 6 && s[..6] == "--net-"
  {
    match n
    case Bridged(networkInterface) => "--net-bridged " + networkInterface
    case Softnet => "--net-softnet"
  }

  /** Different network choices give different arguments. */
  lemma {:induction false} NetworkArgumentInjective(n: Networking, m: Networking)
    requires n != m
    ensures NetworkArgumentString(n) != NetworkArgumentString(m)
  {
    var a, b := NetworkArgumentString(n), NetworkArgumentString(m);
    if n.Bridged? && m.Bridged? {
      assert a[14..] == n.networkInterface && b[14..] == m.networkInterface;
    } else {
      assert a[6] != b[6];
    }
  }

  /** `.filter { $0.isEmpty }`: keeps the empty tokens, and only them. */
  function KeepEmpty(tokens: seq<string>): (kept: seq<string>)
    ensures forall k :: 0 <= k < |kept| ==> kept[k] == ""
    ensures |kept| <= |tokens|
  {
    if |tokens| == 0 then []
    else (if tokens[0] == "" then [tokens[0]] else []) + KeepEmpty(tokens[1..])
  }

  /** One blank survives per blank token. */
  lemma {:induction false} KeepEmptyCount(tokens: seq<string>)
    ensures |KeepEmpty(tokens)| == multiset(tokens)[""]
    decreases |tokens|
  {
    if |tokens| > 0 {
      KeepEmptyCount(tokens[1..]);
      assert tokens == [tokens[0]] + tokens[1..];
    }
  }

  /** Tokens without a blank among them leave nothing at all. */
  lemma {:induction false} KeepEmptyNone(tokens: seq<string>)
    requires "" !in tokens
    ensures KeepEmpty(tokens) == []
  {
    KeepEmptyCount(tokens);
  }

  lemma {:induction false} KeepEmptyAppend(a: seq<string>, b: seq<string>)
    ensures KeepEmpty(a + b) == KeepEmpty(a) + KeepEmpty(b)
    decreases |a|
  {
    if |a| > 0 {
      assert (a + b)[1..] == a[1..] + b;
      KeepEmptyAppend(a[1..], b);
    } else {
      assert a + b == b;
    }
  }

  /** Two non-blank leading words drop out of the filtered template. */
  lemma {:induction false} KeepEmptyAfterTwo(w1: string, w2: string, rest: seq<string>)
    requires w1 != "" && w2 != ""
    ensures KeepEmpty([w1, w2] + rest) == KeepEmpty(rest)
  {
    KeepEmptyAppend([w1, w2], rest);
    KeepEmptyNone([w1, w2]);
  }

  function InsecureFlag(insecure: bool): string
  {
    if insecure then "--insecure" else ""
  }

  /** `clone(sourceName:newName:insecure:)` as written. */
  function CloneArgs(sourceName: string, newName: string, insecure: bool := false): seq<string>
  {
    KeepEmpty(["tart", "clone", sourceName, newName, InsecureFlag(insecure)])
  }

  /** `delete(vmName:)`. */
  function DeleteArgs(vmName: string): seq<string>
  {
    ["tart", "delete", vmName]
  }

  /** `ip(vmName:wait:)`, the wait in whole seconds. */
  function IpArgs(vmName: string, waitSeconds: int := DefaultIpWaitSeconds): seq<string>
  {
    ["tart", "ip", "--wait", IntToString(waitSeconds), vmName]
  }

  /** `prune(olderThan:cacheBudget:)`, the age in days defaulting to 7. */
  function PruneArgs(days: int := DefaultPruneDays, cacheBudget: Option<int>): seq<string>
  {
    Compact([
      Some("tart"), Some("prune"), Some("--older-than"), Some(IntToString(days)),
      if cacheBudget.Some? then Some("--cache-budget " + IntToString(cacheBudget.value)) else None
    ])
  }

  /** `pull(vmName:insecure:)` as written. */
  function PullArgs(vmName: string, insecure: bool := false): seq<string>
  {
    KeepEmpty(["tart", "pull", vmName, InsecureFlag(insecure)])
  }

  function DiskArgumentStrings(disks: seq<DiskMount>): seq<string>
  {
    seq(|disks|, k requires 0 <= k < |disks| => DiskArgumentString(disks[k]))
  }

  function DirArgumentStrings(dirs: seq<DirMount>): seq<string>
  {
    seq(|dirs|, k requires 0 <= k < |dirs| => DirArgumentString(dirs[k]))
  }

  /** `run(vmName:graphics:disk:dir:network:)` as written. */
  function RunArgs(vmName: string, graphics: bool := false, disk: seq<DiskMount> := [],
                   dir: seq<DirMount> := [], network: Option<Networking> := None): seq<string>
  {
    KeepEmpty([
      "tart", "run", vmName,
      if graphics then "--graphics" else "--no-graphics",
      Join(DiskArgumentStrings(disk), " "),
      Join(DirArgumentStrings(dir), " "),
      if network.Some? then NetworkArgumentString(network.value) else ""
    ])
  }

  /** `stop(vmName:timeout:)`, the timeout in whole seconds. */
  function StopArgs(vmName: string, timeoutSeconds: int := DefaultStopTimeoutSeconds): seq<string>
  {
    ["tart", "stop", "-t", IntToString(timeoutSeconds), vmName]
  }

  /** `clone` as written hands `System.run` only the empty tokens of its
      template: one per empty name, and the blank where `--insecure` would go.
      The `tart` program itself is never named. */
  lemma {:induction false} CloneArgsAsWritten(sourceName: string, newName: string, insecure: bool)
    ensures CloneArgs(sourceName, newName, insecure) ==
      (if sourceName == "" then [""] else []) + (if newName == "" then [""] else []) + (if insecure then [] else [""])
    ensures "tart" !in CloneArgs(sourceName, newName, insecure)
  {
    var rest := [sourceName, newName, InsecureFlag(insecure)];
    assert ["tart", "clone", sourceName, newName, InsecureFlag(insecure)] == ["tart", "clone"] + rest;
    KeepEmptyAfterTwo("tart", "clone", rest);
    var flag := InsecureFlag(insecure);
    assert [flag][1..] == [] && [newName, flag][1..] == [flag] && rest[1..] == [newName, flag];
    assert KeepEmpty([flag]) == (if insecure then [] else [""]);
    assert KeepEmpty([newName, flag]) == (if newName == "" then [""] else []) + KeepEmpty([flag]);
    assert KeepEmpty(rest) == (if sourceName == "" then [""] else []) + KeepEmpty([newName, flag]);
  }

  /** `pull` as written: likewise only blanks, never `tart`. */
  lemma {:induction false} PullArgsAsWritten(vmName: string, insecure: bool)
    ensures PullArgs(vmName, insecure) == (if vmName == "" then [""] else []) + (if insecure then [] else [""])
    ensures "tart" !in PullArgs(vmName, insecure)
  {
    var rest := [vmName, InsecureFlag(insecure)];
    assert ["tart", "pull", vmName, InsecureFlag(insecure)] == ["tart", "pull"] + rest;
    KeepEmptyAfterTwo("tart", "pull", rest);
    var flag := InsecureFlag(insecure);
    assert rest[1..] == [flag] && [flag][1..] == [];
  }

  /** `run` as written: every token handed over is blank, so `tart` is never run. */
  lemma {:induction false} RunArgsAsWritten(vmName: string, graphics: bool, disk: seq<DiskMount>, dir: seq<DirMount>, network: Option<Networking>)
    ensures forall k :: 0 <= k < |RunArgs(vmName, graphics, disk, dir, network)| ==> RunArgs(vmName, graphics, disk, dir, network)[k] == ""
    ensures "tart" !in RunArgs(vmName, graphics, disk, dir, network)
  {
  }

  /** The start command of the prepare hook (one shared directory, softnet) is
      a single blank token whenever the VM name is not empty. */
  lemma {:induction false} PrepareStartArgs(vmName: string)
    requires vmName != ""
    ensures RunArgs(vmName, false, [], [DirMount("ssh", "~/.ssh")], Some(Softnet)) == [""]
  {
    var dirArg := Join(DirArgumentStrings([DirMount("ssh", "~/.ssh")]), " ");
    assert dirArg != "" by {
      var dirs := DirArgumentStrings([DirMount("ssh", "~/.ssh")]);
      assert |dirs| == 1;
      assert dirArg == dirs[0] == DirArgumentString(DirMount("ssh", "~/.ssh"));
    }
    var diskArg := Join(DiskArgumentStrings([]), " ");
    assert diskArg == "" by {
      assert |DiskArgumentStrings([])| == 0;
    }
    var netArg := NetworkArgumentString(Softnet);
    SingleBlankKept(vmName, diskArg, dirArg, netArg);
  }

  lemma {:induction false} SingleBlankKept(vmName: string, diskArg: string, dirArg: string, netArg: string)
    requires vmName != "" && diskArg == "" && dirArg != "" && netArg != ""
    ensures KeepEmpty(["tart", "run", vmName, "--no-graphics", diskArg, dirArg, netArg]) == [""]
  {
    var front := ["tart", "run", vmName, "--no-graphics"];
    var back := [dirArg, netArg];
    assert ["tart", "run", vmName, "--no-graphics", diskArg, dirArg, netArg] == front + [diskArg] + back;
    assert "" !in front by {
      assert forall k :: 0 <= k < |front| ==> |front[k]| > 0;
    }
    assert "" !in back;
    OneBlankKept(front, diskArg, back);
  }

  lemma {:induction false} OneBlankKept(front: seq<string>, blank: string, back: seq<string>)
    requires "" !in front && blank == "" && "" !in back
    ensures KeepEmpty(front + [blank] + back) == [blank]
  {
    KeepEmptyNone(front);
    KeepEmptyNone(back);
    KeepEmptyAppend(front + [blank], back);
    KeepEmptyAppend(front, [blank]);
  }

  /** `stop` names the VM last and passes the timeout as a decimal token that
      reads back as the timeout; the default timeout is 30 seconds. */
  lemma {:induction false} StopArgsTimeout(vmName: string, timeoutSeconds: int)
    ensures |StopArgs(vmName, timeoutSeconds)| == 5
    ensures StopArgs(vmName, timeoutSeconds)[..3] == ["tart", "stop", "-t"] && StopArgs(vmName, timeoutSeconds)[4] == vmName
    ensures ParseInt(StopArgs(vmName, timeoutSeconds)[3]) == timeoutSeconds
    ensures StopArgs(vmName) == ["tart", "stop", "-t", "30", vmName]
  {
    IntToStringRoundTrip(timeoutSeconds);
    assert NatToString(30) == NatToString(3) + [Digit(0)] == "30";
  }

  /** `ip` passes its wait the same way; the default wait is 0 seconds. */
  lemma {:induction false} IpArgsWait(vmName: string, waitSeconds: int)
    ensures |IpArgs(vmName, waitSeconds)| == 5
    ensures IpArgs(vmName, waitSeconds)[..3] == ["tart", "ip", "--wait"] && IpArgs(vmName, waitSeconds)[4] == vmName
    ensures ParseInt(IpArgs(vmName, waitSeconds)[3]) == waitSeconds
    ensures IpArgs(vmName) == ["tart", "ip", "--wait", "0", vmName]
  {
    IntToStringRoundTrip(waitSeconds);
    assert NatToString(0) == "0";
  }

  /** `prune`: the age limit in days, then exactly one `--cache-budget N` token
      when a budget is given and none otherwise; the default age is 7 days. */
  lemma {:induction false} PruneArgsShape(days: int, cacheBudget: Option<int>)
    ensures PruneArgs(days, cacheBudget) ==
      ["tart", "prune", "--older-than", IntToString(days)]
      + (if cacheBudget.Some? then ["--cache-budget " + IntToString(cacheBudget.value)] else [])
    ensures ParseInt(PruneArgs(days, cacheBudget)[3]) == days
  {
    var fixed := [Some("tart"), Some("prune"), Some("--older-than"), Some(IntToString(days))];
    var budget := if cacheBudget.Some? then Some("--cache-budget " + IntToString(cacheBudget.value)) else None;
    assert fixed + [budget] == [Some("tart"), Some("prune"), Some("--older-than"), Some(IntToString(days)), budget];
    CompactAllPresent(fixed);
    CompactAppend(fixed, [budget]);
    IntToStringRoundTrip(days);
  }

  /** Omitting the age prunes what is older than 7 days. */
  lemma {:induction false} PruneArgsDefault()
    ensures PruneArgs(cacheBudget := None) == ["tart", "prune", "--older-than", "7"]
  {
    PruneArgsShape(DefaultPruneDays, None);
    assert IntToString(DefaultPruneDays) == "7";
  }
}
