/** The convenience layer of `Sources/System/Systeming.swift`: `commandExists`
    and `ssh`, both built on the `System` object and neither of which throws. */
module Systeming {
  import opened Wrappers
  import opened Strings
  import opened SystemCore

  const DefaultUser: string := "admin"
  /** `Duration.seconds(5)`, kept as whole seconds. */
  const DefaultTimeoutSeconds: int := 5

  function Prefixed(prefix: string, value: Option<string>): Option<string>
  {
    if value.Some? then Some(prefix + value.value) else None
  }

  /** The command `ssh` runs: host-key checking off, a connection timeout, an
      optional identity, the login, and an optional script, each optional part a
      single token that is left out when absent. */
  function SshArgs(identity: Option<string>, user: string, timeoutSeconds: int, host: string, script: Option<string>): (args: seq<string>)
  {
    Compact([
      Some("ssh"),
      Some("-o"), Some("StrictHostKeyChecking=no"),
      Some("-o"), Some("ConnectTimeout=" + IntToString(timeoutSeconds)),
      Prefixed("-i ", identity),
      Some(user + "@" + host),
      Prefixed("< ", script)
    ])
  }

  /** The exact token list: a present identity adds one `-i` token just before
      `user@host`, a present script adds one final `<` token, and absent ones add
      nothing. */
  lemma {:induction false} SshArgsShape(identity: Option<string>, user: string, timeoutSeconds: int, host: string, script: Option<string>)
    ensures SshArgs(identity, user, timeoutSeconds, host, script) ==
      ["ssh", "-o", "StrictHostKeyChecking=no", "-o", "ConnectTimeout=" + IntToString(timeoutSeconds)]
      + (if identity.Some? then ["-i " + identity.value] else [])
      + [user + "@" + host]
      + (if script.Some? then ["< " + script.value] else [])
  {
    var timeout := "ConnectTimeout=" + IntToString(timeoutSeconds);
    var fixed := [Some("ssh"), Some("-o"), Some("StrictHostKeyChecking=no"), Some("-o"), Some(timeout)];
    var id, login, sc := Prefixed("-i ", identity), Some(user + "@" + host), Prefixed("< ", script);
    calc {
      SshArgs(identity, user, timeoutSeconds, host, script);
      { assert [Some("ssh"), Some("-o"), Some("StrictHostKeyChecking=no"), Some("-o"), Some(timeout), id, login, sc]
          == fixed + [id, login, sc];
        CompactAppend(fixed, [id, login, sc]); }
      Compact(fixed) + Compact([id, login, sc]);
      { CompactAllPresent(fixed); }
      ["ssh", "-o", "StrictHostKeyChecking=no", "-o", timeout] + Compact([id, login, sc]);
      { CompactThree(id, login, sc); CompactPrefixed("-i ", identity); CompactPrefixed("< ", script); CompactOne(login); }
      ["ssh", "-o", "StrictHostKeyChecking=no", "-o", timeout]
      + (if identity.Some? then ["-i " + identity.value] else [])
      + [user + "@" + host]
      + (if script.Some? then ["< " + script.value] else []);
    }
  }

  lemma {:induction false} CompactPrefixed(prefix: string, value: Option<string>)
    ensures Compact([Prefixed(prefix, value)]) == if value.Some? then [prefix + value.value] else []
  {
    CompactOne(Prefixed(prefix, value));
  }

  /** With every default and neither identity nor script, `ssh` runs exactly
      `ssh -o StrictHostKeyChecking=no -o ConnectTimeout=5 admin@host`. */
  lemma {:induction false} SshArgsDefaults(host: string)
    ensures SshArgs(None, DefaultUser, DefaultTimeoutSeconds, host, None) ==
      ["ssh", "-o", "StrictHostKeyChecking=no", "-o", "ConnectTimeout=5", "admin@" + host]
  {
    SshArgsShape(None, DefaultUser, DefaultTimeoutSeconds, host, None);
    assert IntToString(DefaultTimeoutSeconds) == [Digit(5)] == "5";
    assert "ConnectTimeout=" + "5" == "ConnectTimeout=5";
    assert DefaultUser + "@" + host == "admin@" + host;
  }

  /** `ssh(identity:user:timeout:host:script:)`: true exactly when the `ssh`
      command exits with code 0; a failure is reported as false, never thrown. */
  method Ssh(system: System, identity: Option<string> := None, user: string := DefaultUser,
             timeoutSeconds: int := DefaultTimeoutSeconds, host: string, script: Option<string> := None)
    returns (ok: bool)
    modifies system
    ensures system.trace == old(system.trace) + [Exec(SshArgs(identity, user, timeoutSeconds, host, script))]
    ensures ok <==> Succeeded(Launch(system.oracle, old(system.trace), SshArgs(identity, user, timeoutSeconds, host, script)).exitStatus)
  {
    var args := SshArgs(identity, user, timeoutSeconds, host, script);
    SshArgsShape(identity, user, timeoutSeconds, host, script);
    var outcome := system.Run(args);
    ok := outcome.Pass?;
  }

  /** `commandExists`: true exactly when `which(name)` does not throw. */
  method CommandExists(system: System, name: string) returns (found: bool)
    modifies system
    ensures system.trace == old(system.trace) + [Exec(WhichArgs(name))]
    ensures found <==> WhichResult(Launch(system.oracle, old(system.trace), WhichArgs(name))).Success?
    ensures found <==> Succeeded(Launch(system.oracle, old(system.trace), WhichArgs(name)).exitStatus)
  {
    var path := system.Which(name);
    found := path.Success?;
  }
}
