# Tart GitLab executor, modelled in Dafny

This project models the deterministic core of a GitLab "custom executor" that runs each CI
job in its own virtual machine, managed by the `tart` command-line tool. The executor's hooks
do the following:

- **prepare** clones the job image into a VM named after the job, starts that VM, asks for
  its address, and waits until `ssh` to it succeeds.
- **run** runs `ssh` on the VM with one extra `< script` argument, which `ssh` forwards as
  the remote command.
- **cleanup** stops the VM and deletes it.
- **prepare-ssh** merges the public keys shared with the VM into `authorized_keys`.

All of them go through one process layer. That layer builds command lines, runs them, and
classifies how each one ended.

The model is organised as in the source:

- `SystemCore` (`System.swift`) models the process layer:
  - how a finished process is classified (`throwIfErrored`, `command()`);
  - what `capture`, `run` and `which` return;
  - how `System.process` splits a command.
- The shared `System` object is a class. It records every effect in a `trace`. The outcome of
  each command comes from an *oracle* that sees everything that happened before. So a probe
  can fail a few times and then succeed, and every hook is a method proved equal to a pure
  specification of its outcome and of the trace it leaves.
- `Systeming` models `ssh` and `commandExists`.
- `TartService` models the mount and network argument strings and the command each `tart`
  operation hands to `System.run`.
- `Extensions` models the VM name and the job image, both read from the environment.
- `Prepare`, `Run` and `Clean` model the three lifecycle hooks. `Commands` holds their
  common outcome type: returned, `exit(n)`, or threw.
- `PrepareSSH` models the key collection, the `.pub` filter and the merged
  `authorized_keys` text. The file system is a map from paths to contents.
- `Strings` and `Wrappers` hold the Swift library operations used throughout: `joined`,
  `components(separatedBy:)`, `trimmingCharacters(in: .whitespacesAndNewlines)`, `String(Int)`,
  `compactMap`, optionals and throwing calls.

## Where the code and its design description part ways

The model follows the code. Each point below is stated as a lemma about the code as written.

- **`filter { $0.isEmpty }` keeps the empty tokens.** `clone`, `pull` and `run` in
  `TartService.swift` keep only the blank tokens of their templates. `tart` itself is never
  named (`CloneArgsAsWritten`, `PullArgsAsWritten`, `RunArgsAsWritten`). The start command of
  the prepare hook is therefore the single token `""` (`PrepareStartArgs`).
- **`:ro` is never emitted.** `isReadOnly` is a constant `false`, so neither mount string can
  carry it.
- **`TartService.run` is blocking.** It hands the command to the blocking `System.run`, not
  to `runOnBackground`. The design describes a start that returns as soon as the VM is
  launched.
- **`TartService.ip` returns nothing.** The prepare and run hooks still use its result as the
  host to `ssh` to. The model keeps the command, and the address is a parameter of both hooks.
- **Status 6 is unreachable.** The readiness check `i == 30` sits inside `for i in 0..<30`,
  so `exit(6)` is never reached. When all thirty probes fail, the prepare hook returns
  normally (`ReadinessAllFail`, `PrepareOutcomes`). The design calls for a readiness timeout.
- **One sleep per probe.** Every probe, the first included, follows a one-second sleep. A
  probe that succeeds on attempt K+1 comes after K+1 sleeps (`ReadinessFirstSuccess`,
  `RoundsShape`), not K.
- **`capture` returns untrimmed output.** It returns standard output as decoded. Only `which`
  trims (`CaptureResult`, `WhichResult`). The design says `capture` trims.
- **VM names can collide.** The VM name ignores the runner id (`VmIDIgnoresRunnerID`). It
  joins the other values without escaping, so two different environments can name the same
  VM (`VmIDCanCollide`). The design promises a name unique across concurrent jobs and one
  that changes with every input.
- **The script argument.** The run hook takes the script from `arguments[1]`. The hooks are
  subcommands of one executable (`Sources/TartGitlabExecutor/TartGitlabExecutor.swift:9-15`),
  so `arguments[1]` would be the subcommand name `run`, not the script. This is an
  observation from reading the code, not executed. The model takes the script as
  `arguments[1]`, as written.

## Model

| member | source | states |
|---|---|---|
| SystemCore.CommandName | Sources/System/System.swift:32-38 | the reported command is the second token when the first is `/usr/bin/xcrun`, otherwise the first |
| SystemCore.ThrowIfErrored | Sources/System/System.swift:16-27 | passes exactly when the process exited with 0; a signal, or any other exit code, fails with the command name, that number and the whole standard error |
| SystemCore.CaptureResult | Sources/System/System.swift:105-113 | succeeds exactly when `throwIfErrored` passes, with the untrimmed standard output; otherwise fails with the classified error |
| SystemCore.RunResult | Sources/System/System.swift:67-69 | succeeds exactly when `capture` succeeds, with the same error otherwise, and keeps no output |
| SystemCore.WhichResult | Sources/System/System.swift:154-156 | succeeds exactly when the `which` process exits with 0; the value is the output trimmed, with no whitespace at either end |
| SystemCore.Process | Sources/System/System.swift:165-175 | the executable followed by the arguments is the original command |
| SystemCore.System.Capture | Sources/System/System.swift:83-114 | records the command in the trace and returns what `CaptureResult` makes of its termination |
| SystemCore.System.Run | Sources/System/System.swift:67-69 | records the command in the trace and returns what `RunResult` makes of its termination |
| SystemCore.System.Which | Sources/System/System.swift:154-156 | runs `/usr/bin/env which name`, records it, and returns what `WhichResult` makes of it |
| Systeming.SshArgsShape | Sources/System/Systeming.swift:115-122 | the exact `ssh` command: fixed options, one `-i` token only with an identity, then `user@host`, then one final `<` token only with a script |
| Systeming.SshArgsDefaults | Sources/System/Systeming.swift:107-122 | with the defaults and neither identity nor script the command is `ssh -o StrictHostKeyChecking=no -o ConnectTimeout=5 admin@host` |
| Systeming.Ssh | Sources/System/Systeming.swift:107-127 | runs one command and returns true exactly when it exits with 0; never throws |
| Systeming.CommandExists | Sources/System/Systeming.swift:98-105 | true exactly when `which` does not throw, that is when the `which` process exits with 0 |
| TartService.DiskArgumentString | Sources/ExecutorCore/Services/TartService.swift:4-16 | the disk argument is `--disk="path"`, never with `:ro` |
| TartService.DirArgumentString | Sources/ExecutorCore/Services/TartService.swift:19-34 | the directory argument is `--dir="name:path"`, never with `:ro` |
| TartService.NetworkArgumentString | Sources/ExecutorCore/Services/TartService.swift:37-48 | every network argument starts with `--net-` |
| TartService.NetworkArgumentInjective | Sources/ExecutorCore/Services/TartService.swift:41-48 | different network choices give different arguments |
| TartService.KeepEmpty | Sources/ExecutorCore/Services/TartService.swift:65 | every token kept is blank, and there are no more than there were tokens |
| TartService.KeepEmptyCount | Sources/ExecutorCore/Services/TartService.swift:65 | exactly one token survives per blank token |
| TartService.KeepEmptyAppend | Sources/ExecutorCore/Services/TartService.swift:65 | filtering a concatenation is concatenating the filtered parts |
| TartService.CloneArgsAsWritten | Sources/ExecutorCore/Services/TartService.swift:54-66 | `clone` hands over only blanks, one per empty name and one for the absent `--insecure`; `tart` is never among them |
| TartService.PullArgsAsWritten | Sources/ExecutorCore/Services/TartService.swift:102-112 | `pull` hands over only blanks, one for an empty name and one for the absent `--insecure`; never `tart` |
| TartService.RunArgsAsWritten | Sources/ExecutorCore/Services/TartService.swift:114-130 | every token `run` hands over is blank, so `tart` is never run |
| TartService.PrepareStartArgs | Sources/ExecutorCore/Services/TartService.swift:114-130 | the prepare hook's start command is the single token `""` whenever the VM name is not empty |
| TartService.StopArgsTimeout | Sources/ExecutorCore/Services/TartService.swift:132-142 | `stop` is `tart stop -t N name`, N reads back as the timeout, and the default is 30 |
| TartService.IpArgsWait | Sources/ExecutorCore/Services/TartService.swift:78-88 | `ip` is `tart ip --wait N name`, N reads back as the wait, and the default is 0 |
| TartService.PruneArgsShape | Sources/ExecutorCore/Services/TartService.swift:90-100 | `prune` is `tart prune --older-than DAYS`, plus exactly one `--cache-budget N` token when a budget is given; DAYS reads back as the days |
| TartService.PruneArgsDefault | Sources/ExecutorCore/Services/TartService.swift:90-99 | omitting the age gives `tart prune --older-than 7` |
| Extensions.VmID | Sources/ExecutorCore/Extensions.swift:4-18 | the VM name always starts with `runner` |
| Extensions.VmImage | Sources/ExecutorCore/Extensions.swift:20 | the image is present exactly when `CUSTOM_ENV_CI_JOB_IMAGE` is set, and is its value |
| Extensions.VmIDShape | Sources/ExecutorCore/Extensions.swift:10-17 | the name in closed form: each absent value drops out with its dash, nothing stands in for it |
| Extensions.VmIDAllPresent | Sources/ExecutorCore/Extensions.swift:10-17 | with all three values present the name is `runner-P-concurrent-C-job-J` |
| Extensions.VmIDIgnoresRunnerID | Sources/ExecutorCore/Extensions.swift:5-17 | setting or removing the runner id leaves the name unchanged |
| Extensions.VmIDCanCollide | Sources/ExecutorCore/Extensions.swift:10-17 | two different environments yield the same name |
| Wrappers.Compact | Sources/ExecutorCore/Extensions.swift:17 | `compactMap { $0 }` never lengthens the list |
| Wrappers.CompactMembers | Sources/System/Systeming.swift:122 | exactly the present values survive `compactMap { $0 }` |
| Wrappers.CompactAppend | Sources/ExecutorCore/Services/TartService.swift:99 | `compactMap` of a concatenation is the concatenation of the parts' |
| Wrappers.CompactAllPresent | Sources/ExecutorCore/Services/TartService.swift:99 | with every value present nothing is dropped |
| Strings.Split | Sources/ExecutorCore/Commands/PrepareSSH.swift:29 | splitting always yields at least one piece |
| Strings.SplitCount | Sources/ExecutorCore/Commands/PrepareSSH.swift:29 | there is one more piece than there are separators |
| Strings.SplitPiecesAvoid | Sources/ExecutorCore/Commands/PrepareSSH.swift:29 | no piece contains the separator |
| Strings.JoinSplit | Sources/ExecutorCore/Commands/PrepareSSH.swift:20-29 | joining the pieces with the separator gives the text back |
| Strings.SplitJoin | Sources/ExecutorCore/Commands/PrepareSSH.swift:20-29 | splitting a join of separator-free parts gives the parts back |
| Strings.Trim | Sources/System/System.swift:155 | the result is an infix of the input surrounded only by whitespace, with no whitespace at either end |
| Strings.TrimIdempotent | Sources/ExecutorCore/Commands/PrepareSSH.swift:30 | trimming twice is trimming once |
| Strings.TrimKeepsAbsent | Sources/ExecutorCore/Commands/PrepareSSH.swift:30 | trimming introduces no character that was not there |
| Strings.NatToString | Sources/ExecutorCore/Services/TartService.swift:85 | the decimal form is non-empty, all digits, and has no leading zero |
| Strings.IntToStringRoundTrip | Sources/ExecutorCore/Services/TartService.swift:85 | `String(n)` parses back to `n`, negative numbers included |
| Strings.LowerString | Sources/ExecutorCore/Commands/PrepareSSH.swift:75 | lower-casing keeps the length and lowers each letter |
| Prepare.RoundsShape | Sources/ExecutorCore/Commands/Prepare.swift:45-54 | `n` failed rounds are `n` probes, each right after its own one-second sleep |
| Prepare.ReadinessSkip | Sources/ExecutorCore/Commands/Prepare.swift:45-60 | after `k` failing rounds the loop carries on at round `k` with those rounds in the trace |
| Prepare.ReadinessFirstSuccess | Sources/ExecutorCore/Commands/Prepare.swift:45-54 | when rounds before `k` fail and round `k` connects, the hook finishes after exactly `k+1` sleeps and probes |
| Prepare.ReadinessCancelled | Sources/ExecutorCore/Commands/Prepare.swift:46-50 | a cancelled sleep exits with 5, right after the sleep and with no further probe |
| Prepare.ReadinessAllFail | Sources/ExecutorCore/Commands/Prepare.swift:45-59 | when all thirty probes fail the hook finishes normally after exactly thirty rounds: status 6 is never reached |
| Prepare.ReadinessOutcome | Sources/ExecutorCore/Commands/Prepare.swift:45-60 | the loop ends normally or with 5, only adds to the trace, and at most two effects per round |
| Prepare.PrepareOutcomes | Sources/ExecutorCore/Commands/Prepare.swift:10-64 | the hook ends normally or with 2, 3, 4, 5 or 7, never 6 and never by throwing; it only adds to the trace; status 2 exactly when there is no image, and then nothing runs |
| Prepare.PrepareSteps | Sources/ExecutorCore/Commands/Prepare.swift:22-44 | clone, start and `ip` run in that order, each only after the previous one succeeded; the first failure decides 3, 4 or 7 and nothing runs after it; otherwise the probe loop decides |
| Prepare.TaskSleep | Sources/ExecutorCore/Commands/Prepare.swift:46-50 | the sleep is recorded, and it reports failure exactly when it was cancelled |
| Prepare.ProbeRound | Sources/ExecutorCore/Commands/Prepare.swift:46-59 | one pass of the loop body either ends the hook as `Readiness` says or leaves the loop where `Readiness` goes on |
| Prepare.AwaitSsh | Sources/ExecutorCore/Commands/Prepare.swift:45-60 | the loop's outcome and trace are those of `Readiness` from round 0 |
| Prepare.Run | Sources/ExecutorCore/Commands/Prepare.swift:10-64 | the hook's outcome and trace are those of `PrepareSpec` |
| Run.RunOutcomes | Sources/ExecutorCore/Commands/Run.swift:13-25 | `ip` runs first; when it fails the hook throws its `tart` error and `ssh` never runs; otherwise the hook throws `PipelineFailed` exactly when the script fails and finishes exactly when it succeeds |
| Run.ScriptArgsShape | Sources/ExecutorCore/Commands/Run.swift:16-19 | the script runs as `ssh … admin@address "< script"` with the default options |
| Run.Run | Sources/ExecutorCore/Commands/Run.swift:10-26 | the hook's outcome and trace are those of `RunSpec`, with the script taken from the second command-line argument |
| Clean.CleanStopsThenDeletes | Sources/ExecutorCore/Commands/Clean.swift:15-16 | whatever happens, cleanup finishes normally after `tart stop -t 30 name` and then `tart delete name` |
| Clean.Run | Sources/ExecutorCore/Commands/Clean.swift:10-17 | the hook's outcome and trace are those of `CleanSpec`, whether or not either command succeeds |
| PrepareSSH.PublicKeys | Sources/ExecutorCore/Commands/PrepareSSH.swift:24-32 | an unreadable file yields no key; a readable one yields one key per line, one more than it has newlines |
| PrepareSSH.PublicKeysClean | Sources/ExecutorCore/Commands/PrepareSSH.swift:29-30 | every key read is a single line without whitespace at either end |
| PrepareSSH.Dedupe | Sources/ExecutorCore/Commands/PrepareSSH.swift:20 | the same members as the input, each once |
| PrepareSSH.DedupeDistinct | Sources/ExecutorCore/Commands/PrepareSSH.swift:20 | a list without repetitions is unchanged |
| PrepareSSH.DedupeAbsorb | Sources/ExecutorCore/Commands/PrepareSSH.swift:20 | appending keys already present changes nothing |
| PrepareSSH.AuthorizedKeysLines | Sources/ExecutorCore/Commands/PrepareSSH.swift:18-21 | the lines written are exactly the collected keys, none missing and none twice |
| PrepareSSH.AuthorizedKeysReadBack | Sources/ExecutorCore/Commands/PrepareSSH.swift:20-31 | reading the written file back yields the distinct keys |
| PrepareSSH.PrepareSSHIdempotent | Sources/ExecutorCore/Commands/PrepareSSH.swift:9-22 | a second run over the same key files writes the same set of lines as the first, each line once |
| PrepareSSH.KeysInUnchanged | Sources/ExecutorCore/Commands/PrepareSSH.swift:18 | rewriting a file that is not a key file leaves the keys read from the key files unchanged |
| PrepareSSH.LastIndexOf | Sources/ExecutorCore/Commands/PrepareSSH.swift:75 | the position of the last occurrence, or -1 exactly when there is none |
| PrepareSSH.PathExtension | Sources/ExecutorCore/Commands/PrepareSSH.swift:75 | an extension never contains a dot |
| PrepareSSH.IsPubKeyFileByExtension | Sources/ExecutorCore/Commands/PrepareSSH.swift:75 | `stem.ext` passes the filter exactly when `ext` lower-cased is `pub` |
| PrepareSSH.PubKeyFiles | Sources/ExecutorCore/Commands/PrepareSSH.swift:75 | a name is kept exactly when it is listed and passes the filter |
| PrepareSSH.PredefinedPublicKeys | Sources/ExecutorCore/Commands/PrepareSSH.swift:70-78 | nothing when the folder cannot be listed; otherwise exactly the listed `.pub` files, as paths in the shared `ssh` folder |
| PrepareSSH.Run | Sources/ExecutorCore/Commands/PrepareSSH.swift:9-22 | when the write succeeds only `authorized_keys` changes, to the merged keys; when it fails nothing changes and the hook throws |

## Left out

- Launching processes, waiting for them, and decoding their output as UTF-8 are left out. An
  oracle gives the way each command ends. Launch, wait and decoding errors are not modelled.
  This matters for the blank commands of `clone` and `run`: a real launch of an empty
  executable path fails. Under the oracle it ends however the oracle says. The prepare hook
  treats either way as a clone or start failure.
- `runOnBackground`, `async`, `runAndPrint`, `runAndCollectOutput` and the Combine publishers
  are left out. They are concurrency, process groups and streaming, which this model does not
  represent.
- Shell escaping, `os_log`, `chmod`, the process environment and the verbose logging handlers
  are left out. They are foreign calls with no effect on any result here.
- The Spotlight query is a parameter of `PrepareSSH.Run`, and so is the shared-folder listing.
  `createDirectory` is left out because its failure is ignored. The `spotlightObservation`
  field is left out as well.
- `Setup.swift`, `Package.swift` and the argument-parser wiring in `TartGitlabExecutor.swift`
  are not part of this model.
- SystemError.code: Swift's `Int32` width is not modelled. Codes are unbounded integers.
- TartService.IpArgs, TartService.StopArgs: the `TimeInterval`-to-`Int` truncation is not
  modelled. Waits and timeouts are whole seconds, and sleeps have no real duration.
- Prepare.TaskSleep: only cancellation is modelled, not the passage of time.
- Strings.Trim: this is Foundation's whitespace set as a fixed list of code points. Unicode
  normalisation and grapheme clusters are not modelled.
- Strings.LowerString: this is ASCII lower-casing, not full Unicode case mapping.
- PrepareSSH.PathExtension: this covers what follows the last dot that does not start the
  name. Foundation's other path rules are not modelled.
- PrepareSSH.Dedupe: Swift's `Set` has no defined order. The model lists the keys in order of
  first occurrence, so the exact line order of the written file is not captured. The set of
  lines, each once, is.
- PrepareSSH.PrepareSSHIdempotent: this requires that `authorized_keys` is not itself one of
  the key files read.
