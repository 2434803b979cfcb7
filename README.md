# Cosmovisor launcher: the decision core of `process.go`

Cosmovisor supervises a Cosmos SDK node daemon. `Launcher.Run` resolves the
current binary, checks it, and starts the daemon. It then waits for one of
two things: the daemon exits, or the upgrade-file watcher reports the
expected upgrade. When an upgrade is due, it backs up the daemon's data
directory and runs the upgrade. Its `(bool, error)` result tells the caller
whether to restart with a new binary.

This project models the sequential decisions under the OS plumbing:

- **`Process`** (`process.dfy`) has three functions:
  - `WaitForUpgradeOrExit` is the race once its winner is known. The
    upgrade wins outright. A clean exit means no restart. A crash is
    settled by one synchronous re-check of the upgrade file.
  - `DoBackup` is the optional dated copy of `$HOME/data`.
  - `Run` is the stage chain.

  Every collaborator result is an input, gathered in `StageOutcomes`:
  `CurrentBin`, `EnsureBinary`, `cmd.Start`, the race winner with the exit
  or kill error, `CheckUpdate`, the date string, `copy.Copy` and
  `DoUpgrade`. Each function also returns the steps it took in order (a
  trace). That lets the contracts say which collaborators were called, in
  what order, and which were never reached.
- **`WaitResults`** (`wait_result.dfy`) is the `WaitResult` struct: a class
  with the fields `err` and `info`, and the methods `SetError` and
  `AsResult`. `AfterSetError` is the pure function that specifies one
  `SetError` call, and `SetErrors` folds it over a sequence of calls.
- **`Errors`** (`errors.dfy`) models Go's `fmt.Errorf("…: %w", cause)`
  wrapping: the message text, `Unwrap`, and the `errors.Is` chain.
- **`Wrappers`** (`wrappers.dfy`) holds `Option` (Go's nil) and `Result`
  (Go's `(T, error)`).

Where the design and the code disagree, the model follows the code:

- `SetError` is documented as keeping "the first error"
  (cosmovisor/process.go:106), and the design describes first-write-wins.
  The code actually overwrites any earlier error while `info` is nil
  (cosmovisor/process.go:111-113). `SetErrorsLastWins` and
  `SecondErrorOverwrites` state what the code does: the last non-nil error
  wins.
- The design says an upgrade run returns `(true, nil)`. The code calls
  `DoUpgrade` inside `Run` and returns `(true, DoUpgrade's error)`
  (cosmovisor/process.go:65). So `true` can come with a non-nil error, and
  `Run`'s contract says so.
- The design says the backup starts only after the child is confirmed
  terminated. On the upgrade path the code sends `Kill` and goes straight
  on to the backup, without waiting for the process to exit
  (cosmovisor/process.go:133,146,61). In the model's trace, `KillProcess` is
  directly followed by `CopyData`, with no `ObserveExit` step.
- `WaitResult` is not used by `Run` or `WaitForUpgradeOrExit`. It is
  modelled as the stand-alone cell the file defines.

## Model

| member | source | states |
|---|---|---|
| Errors.Wrap | cosmovisor/process.go:33 | a `%w`-wrapped error unwraps to its cause, is on the cause's `errors.Is` chain, and its text is the context, ": ", then the cause's text |
| Errors.WrapsMessageSuffix | cosmovisor/process.go:31-45 | for every error on a wrapped error's chain, that error's text ends the wrapped error's text, however deep the wrapping |
| Process.WaitForUpgradeOrExit | cosmovisor/process.go:123-147 | the upgrade notification gives `(true, nil)` whatever Kill returns; a clean exit gives `(false, nil)`, stops the watcher and never calls CheckUpdate; a crash calls CheckUpdate exactly once and gives `(true, nil)` if it matches, else `(false, crash)` with the same error; needsUpdate holds exactly in those two upgrade cases; true never comes with an error, and any error returned is the exit error |
| Process.BackupDest | cosmovisor/process.go:72-76 | the backup destination is the source `$HOME/data` followed by `-backup-<date>`, so it is a strict extension of the source path |
| Process.DoBackup | cosmovisor/process.go:68-86 | with UnsafeSkipBackup it returns nil and copies nothing; otherwise it makes exactly one copy from `$HOME/data` to the dated destination; it returns an error exactly when that copy fails, and that error is the copy error wrapped as a backup error |
| Process.Run | cosmovisor/process.go:30-66 | every run first resolves the binary; a restart is asked for exactly when DoUpgrade ran; DoUpgrade is then the last step, the run had started the process, it had first made the backup copy unless backups are skipped, and it returns DoUpgrade's error beside true |
| Process.RunOrdered | cosmovisor/process.go:30-66 | the steps of every run follow the order resolve, check binary, start, the wait's steps, backup copy, upgrade, and none is repeated |
| Process.RunStartFailure | cosmovisor/process.go:31-45 | if CurrentBin, EnsureBinary or cmd.Start fails, the run returns false with that error wrapped in that stage's message, and its trace ends at that stage: it never waits, backs up or upgrades |
| Process.RunStartFailureKeepsCause | cosmovisor/process.go:31-45 | the error a failed start stage returns has the collaborator's error on its Unwrap chain, and its text ends with that error's text |
| Process.RunAfterWait | cosmovisor/process.go:56-59 | after a start, the wait's steps directly follow the start; if the wait did not ask for an upgrade, the run returns `(false, waitErr)` and stops there |
| Process.RunBackupIffUpgrade | cosmovisor/process.go:56-63 | the backup copy happens exactly when the process started, backups are not skipped, and the wait asked for an upgrade |
| Process.RunBackupFailure | cosmovisor/process.go:61-63 | a failed backup copy makes the run return false with the wrapped copy error, and DoUpgrade never runs |
| Process.RunCleanExit | cosmovisor/process.go:134-139 | a started daemon that exits with a nil error ends the run with `(false, nil)`, after observing the exit and stopping the watcher, with no CheckUpdate and no backup |
| Process.RunCrash | cosmovisor/process.go:140-146 | a started daemon that crashes: the run always re-checks the upgrade; with no match it returns `(false, crash)`, and with a match and the backup not failing it restarts with DoUpgrade's error |
| Process.RunUpgradeScenario | cosmovisor/process.go:30-76 | home `/data/home`, backups on, upgrade `v2` notified while `start` runs: the run kills the daemon, copies `/data/home/data` to `/data/home/data-backup-<date>`, upgrades and returns `(true, nil)` |
| WaitResults.AfterSetError | cosmovisor/process.go:108-114 | one SetError never changes info; with info set or a nil argument it changes nothing; otherwise the error becomes the argument |
| WaitResults.SetErrorsKeepsInfo | cosmovisor/process.go:108-114 | no sequence of SetError calls changes info |
| WaitResults.SetErrorsFrozen | cosmovisor/process.go:106-114 | once info is set, any sequence of SetError calls leaves both fields exactly as they were |
| WaitResults.SetErrorsLastWins | cosmovisor/process.go:106-114 | while info is unset, after a sequence of SetError calls the error is the last non-nil argument, or the earlier error if every argument was nil |
| WaitResults.SecondErrorOverwrites | cosmovisor/process.go:111-113 | starting from an empty cell, `SetError(a)` then `SetError(b)` leaves the error `b`, not the first error `a` |
| WaitResults.WaitResult.constructor | cosmovisor/process.go:91-97 | a composite literal sets both fields to the given values |
| WaitResults.WaitResult.SetError | cosmovisor/process.go:108-114 | the new state is AfterSetError of the old state: info is untouched, and err is replaced only by a non-nil error while info is nil |
| WaitResults.WaitResult.AsResult | cosmovisor/process.go:100-104 | returns `(info, err)` as they are and changes neither |

## Left out

- NewLauncher (cosmovisor/process.go:23-26) is left out: it only builds the upgrade-file watcher, which is defined in a file that is not part of this model.
- Building and starting the child (`exec.Command`, and forwarding stdout/stderr via `cmd.Stdout`/`cmd.Stderr`) is left out, as are `cmd.Wait` and `cmd.Process.Kill`. These are OS process I/O. Their results are inputs, and their calls appear as trace steps.
- The signal relay goroutine (cosmovisor/process.go:47-54) is left out. It subscribes to SIGQUIT/SIGTERM, forwards the first one to the child, and calls `log.Fatal` if forwarding fails. That is OS signal handling and concurrency, and its failure ends the whole supervisor rather than returning from `Run`.
- The goroutine and channel `select` in WaitForUpgradeOrExit are left out, and so is the `sync.Mutex` in WaitResult. The race's winner is an input (`WaitEvent`), and WaitResult's calls are modelled one at a time, as the mutex serialises them.
- The file watcher (`MonitorUpdate`, `CheckUpdate`, `Stop`, `currentInfo`), the `Config` methods (`CurrentBin`, `UpgradeName`), `EnsureBinary` and `DoUpgrade` are left out. They are defined in files that are not part of this model, so each is an input value, not a function of its arguments.
- `copy.Copy`, a third-party directory copy, is left out: its result is an input.
- `time.Now().Format("01-22-2000")` is left out. It is a wall-clock reading, and Go reads that unusual layout as a fixed pattern of month and day fields, not as MM-DD-YYYY. The date string is an opaque input.
- DoBackup: the destination is built by `fmt.Sprintf` with `cfg.Home` inside the format string. The model assumes `Home` has no `%` and treats the result as plain concatenation.
- The `fmt.Println` progress messages (cosmovisor/process.go:39,82) are left out; they are logging only.

