/** What is common to the hooks in `Sources/ExecutorCore/Commands/`: how a hook
    run ends, as seen by the GitLab runner that started it. */
module Commands {
  import opened SystemCore

  /** Why a hook threw. */
  datatype HookError =
    | ProcessFailed(failure: SystemError)  // a command it ran did not succeed
    | PipelineFailed                       // `Run`'s job script did not succeed
    | WriteFailed                          // `PrepareSSH` could not write `authorized_keys`

  /** How a hook run ends: `run()` returned, `Foundation.exit(status)` was
      called, or `run()` threw. */
  datatype HookOutcome = Finished | Exited(status: int) | Threw(error: HookError)
}
