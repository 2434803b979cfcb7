/** The decision core of cosmovisor's Launcher: how one run of the daemon
    sequences binary resolution, process start, the race between the
    daemon's exit and the upgrade notification, the data backup and the
    upgrade.  Every call into the operating system or into a collaborator
    outside process.go is an input: `StageOutcomes` says what each of them
    returned, and each operation returns the steps it took in order. */
module Process {
  import opened Wrappers
  import opened Errors

  /** The configuration values process.go reads. */
  datatype Config = Config(
    home: string,             // cfg.Home, the daemon's home directory
    unsafeSkipBackup: bool,   // cfg.UnsafeSkipBackup
    upgradeName: string)      // cfg.UpgradeName(), the upgrade the watcher waits for

  /** Which completion source won the `select` in WaitForUpgradeOrExit. */
  datatype WaitEvent =
    | UpgradeNotified(killErr: Option<Error>)  // the watcher fired; what cmd.Process.Kill returned
    | ProcessExited(err: Option<Error>)        // cmd.Wait returned first, with this error

  /** The externally visible actions of a run, in the order they happen. */
  datatype Step =
    | ResolveBinary                            // cfg.CurrentBin()
    | CheckBinary(bin: string)                 // EnsureBinary(bin)
    | StartProcess(bin: string, args: seq<string>)  // cmd.Start() of bin with args
    | KillProcess                              // cmd.Process.Kill()
    | ObserveExit                              // cmd.Wait() returned on cmdDone
    | StopWatcher                              // fw.Stop()
    | CheckUpdate(name: string)                // fw.CheckUpdate(name)
    | CopyData(src: string, dst: string)       // copy.Copy(src, dst)
    | ApplyUpgrade                             // DoUpgrade(cfg, fw.currentInfo)

  /** What every collaborator of one Run returned. */
  datatype StageOutcomes = StageOutcomes(
    currentBin: Result<string, Error>,  // cfg.CurrentBin()
    ensureBinary: Option<Error>,        // EnsureBinary(bin)
    start: Option<Error>,               // cmd.Start()
    event: WaitEvent,                   // the winner of the select
    checkUpdate: bool,                  // fw.CheckUpdate(name), should it be called
    date: string,                       // time.Now().Format(...)
    copy: Option<Error>,                // copy.Copy(src, dst), should it be called
    upgrade: Option<Error>)             // DoUpgrade(...), should it be called

  datatype WaitOutcome = WaitOutcome(needsUpdate: bool, err: Option<Error>, steps: seq<Step>)
  datatype BackupOutcome = BackupOutcome(err: Option<Error>, steps: seq<Step>)
  datatype RunOutcome = RunOutcome(needsRestart: bool, err: Option<Error>, trace: seq<Step>)

  /** The position of each kind of step in a run; a run's trace climbs it strictly. */
  function Rank(s: Step): nat
  {
    match s
    case ResolveBinary => 0
    case CheckBinary(_) => 1
    case StartProcess(_, _) => 2
    case KillProcess => 3
    case ObserveExit => 3
    case StopWatcher => 4
    case CheckUpdate(_) => 5
    case CopyData(_, _) => 6
    case ApplyUpgrade => 7
  }

  /** Every step comes strictly later in the run order than the ones before it:
      no step repeats and no stage runs out of order. */
  predicate Ordered(t: seq<Step>)
  {
    forall i, j :: 0 <= i < j < |t| ==> Rank(t[i]) < Rank(t[j])
  }

  /** `strings.Join(parts, sep)`. */
  function Join(parts: seq<string>, sep: string): string
    decreases |parts|
  {
    if |parts| == 0 then ""
    else if |parts| == 1 then parts[0]
    else parts[0] + sep + Join(parts[1..], sep)
  }

  const SymlinkContext := "error creating symlink to genesis"
  const InvalidBinaryContext := "current binary is invalid"
  const BackupContext := "error while taking data backup"

  function LaunchContext(bin: string, args: seq<string>): string
  {
    "launching process " + bin + " " + Join(args, " ") + " failed"
  }

  /** The race between the daemon's exit and the upgrade notification, once
      its winner is known.  The upgrade wins outright and the kill error is
      dropped; a clean exit means no restart without asking the watcher; a
      crash is subsumed by an upgrade that one synchronous re-check finds,
      and is otherwise returned as it is. */
  function WaitForUpgradeOrExit(upgradeName: string, event: WaitEvent, checkUpdate: bool): (r: WaitOutcome)
    ensures event.UpgradeNotified? ==> r.needsUpdate && r.err == None && r.steps == [KillProcess]
    ensures event == ProcessExited(None) ==>
      !r.needsUpdate && r.err == None && r.steps == [ObserveExit, StopWatcher]
    ensures event.ProcessExited? && event.err.Some? ==>
      r.steps == [ObserveExit, StopWatcher, CheckUpdate(upgradeName)] &&
      (r.needsUpdate <==> checkUpdate) &&
      (r.err == None <==> checkUpdate)
    ensures r.needsUpdate <==> event.UpgradeNotified? || (event.err.Some? && checkUpdate)
    ensures r.err.Some? ==> event.ProcessExited? && r.err == event.err
    ensures !(r.needsUpdate && r.err.Some?)
    ensures CheckUpdate(upgradeName) in r.steps <==> event.ProcessExited? && event.err.Some?
    ensures Ordered(r.steps)
  {
    match event
    case UpgradeNotified(_) =>
      WaitOutcome(true, None, [KillProcess])
    case ProcessExited(err) =>
      if err.None? then
        WaitOutcome(false, None, [ObserveExit, StopWatcher])
      else if !checkUpdate then
        WaitOutcome(false, err, [ObserveExit, StopWatcher, CheckUpdate(upgradeName)])
      else
        WaitOutcome(true, None, [ObserveExit, StopWatcher, CheckUpdate(upgradeName)])
  }

  /** The directory the daemon keeps its data in. */
  function BackupSource(home: string): string
  {
    home + "/data"
  }

  /** The dated backup directory: the source path with a suffix, so a
      sibling of the data directory and never the data directory itself. */
  function BackupDest(home: string, date: string): (dst: string)
    ensures dst == BackupSource(home) + "-backup-" + date
    ensures BackupSource(home) < dst
  {
    home + "/data" + "-backup-" + date
  }

  /** doBackup: skipped entirely when UnsafeSkipBackup is set, otherwise one
      copy of the data directory whose failure, wrapped, is the only error. */
  function DoBackup(cfg: Config, date: string, copyResult: Option<Error>): (r: BackupOutcome)
    ensures cfg.unsafeSkipBackup ==> r.err == None && r.steps == []
    ensures !cfg.unsafeSkipBackup ==>
      r.steps == [CopyData(BackupSource(cfg.home), BackupDest(cfg.home, date))]
    ensures r.err.Some? <==> !cfg.unsafeSkipBackup && copyResult.Some?
    ensures r.err.Some? ==> r.err == Some(Wrap(BackupContext, copyResult.value))
  {
    if !cfg.unsafeSkipBackup then
      var dst := BackupDest(cfg.home, date);
      var steps := [CopyData(BackupSource(cfg.home), dst)];
      match copyResult
      case Some(e) => BackupOutcome(Some(Wrap(BackupContext, e)), steps)
      case None => BackupOutcome(None, steps)
    else
      BackupOutcome(None, [])
  }

  /** Every step of `t` ranks in [lo, hi). */
  predicate RanksWithin(t: seq<Step>, lo: nat, hi: nat)
  {
    forall i :: 0 <= i < |t| ==> lo <= Rank(t[i]) < hi
  }

  lemma OrderedAppend(a: seq<Step>, b: seq<Step>, lo: nat, mid: nat, hi: nat)
    requires Ordered(a) && Ordered(b)
    requires lo <= mid <= hi
    requires RanksWithin(a, lo, mid) && RanksWithin(b, mid, hi)
    ensures Ordered(a + b) && RanksWithin(a + b, lo, hi)
  {
    forall i | 0 <= i < |a + b| ensures lo <= Rank((a + b)[i]) < hi {
      if i >= |a| { assert (a + b)[i] == b[i - |a|]; }
    }
  }

  /** The backup copy a run of `cfg` takes on `date`. */
  function BackupStep(cfg: Config, date: string): Step
  {
    CopyData(BackupSource(cfg.home), BackupDest(cfg.home, date))
  }

  /** The three start stages succeeded and the process is running. */
  predicate Started(env: StageOutcomes)
  {
    env.currentBin.Ok? && env.ensureBinary.None? && env.start.None?
  }

  /** One run of the daemon: resolve, validate and start the binary, wait,
      back up, upgrade.  The steps taken follow that order; a restart is
      asked for only by a run that reached the upgrade, which comes last,
      after the backup unless backups are off, and then DoUpgrade's error,
      nil or not, is returned beside true. */
  function Run(cfg: Config, args: seq<string>, env: StageOutcomes): (r: RunOutcome)
    ensures |r.trace| > 0 && r.trace[0] == ResolveBinary
    ensures r.needsRestart <==> ApplyUpgrade in r.trace
    ensures r.needsRestart ==>
      Started(env) && r.trace[|r.trace| - 1] == ApplyUpgrade && r.err == env.upgrade &&
      (cfg.unsafeSkipBackup || BackupStep(cfg, env.date) in r.trace)
  {
    match env.currentBin
    case Err(e) =>
      RunOutcome(false, Some(Wrap(SymlinkContext, e)), [ResolveBinary])
    case Ok(bin) =>
      var checked := [ResolveBinary, CheckBinary(bin)];
      if env.ensureBinary.Some? then
        RunOutcome(false, Some(Wrap(InvalidBinaryContext, env.ensureBinary.value)), checked)
      else
        var started := checked + [StartProcess(bin, args)];
        if env.start.Some? then
          RunOutcome(false, Some(Wrap(LaunchContext(bin, args), env.start.value)), started)
        else
          var w := WaitForUpgradeOrExit(cfg.upgradeName, env.event, env.checkUpdate);
          var waited := started + w.steps;
          if w.err.Some? || !w.needsUpdate then
            RunOutcome(false, w.err, waited)
          else
            var b := DoBackup(cfg, env.date, env.copy);
            var backedUp := waited + b.steps;
            if b.err.Some? then
              RunOutcome(false, b.err, backedUp)
            else
              RunOutcome(true, env.upgrade, backedUp + [ApplyUpgrade])
  }

  /** The trace of a run that started the process: the start steps, the
      wait's steps, then the backup and upgrade steps each stage reached. */
  lemma RunStartedTrace(cfg: Config, args: seq<string>, env: StageOutcomes)
    requires Started(env)
    ensures var bin := env.currentBin.value;
      var w := WaitForUpgradeOrExit(cfg.upgradeName, env.event, env.checkUpdate);
      var b := DoBackup(cfg, env.date, env.copy);
      Run(cfg, args, env).trace ==
        [ResolveBinary, CheckBinary(bin), StartProcess(bin, args)] + w.steps +
        (if !w.needsUpdate then [] else b.steps + (if b.err.Some? then [] else [ApplyUpgrade]))
  {
  }

  lemma OrderedStarted(cfg: Config, args: seq<string>, env: StageOutcomes)
    requires Started(env)
    ensures Ordered(Run(cfg, args, env).trace)
  {
    var bin := env.currentBin.value;
    var w := WaitForUpgradeOrExit(cfg.upgradeName, env.event, env.checkUpdate);
    var b := DoBackup(cfg, env.date, env.copy);
    var started := [ResolveBinary, CheckBinary(bin), StartProcess(bin, args)];
    var tail := if b.err.Some? then [] else [ApplyUpgrade];
    var rest := if !w.needsUpdate then [] else b.steps + tail;
    assert RanksWithin(w.steps, 3, 6);
    OrderedAppend(started, w.steps, 0, 3, 6);
    OrderedAppend(b.steps, tail, 6, 7, 8);
    OrderedAppend(started + w.steps, rest, 0, 6, 8);
    RunStartedTrace(cfg, args, env);
  }

  /** A run's steps follow the run order: resolve, check, start, the wait's
      own steps, the backup copy, the upgrade; none repeats. */
  lemma {:induction false} RunOrdered(cfg: Config, args: seq<string>, env: StageOutcomes)
    ensures Ordered(Run(cfg, args, env).trace)
  {
    if Started(env) {
      OrderedStarted(cfg, args, env);
    } else {
      var t := Run(cfg, args, env).trace;
      assert forall i :: 0 <= i < |t| ==> Rank(t[i]) == i;
    }
  }

  /** A failure of CurrentBin, EnsureBinary or cmd.Start ends the run with
      false and that failure wrapped in the stage's context; no wait, backup
      or upgrade step follows. */
  lemma RunStartFailure(cfg: Config, args: seq<string>, env: StageOutcomes)
    ensures env.currentBin.Err? ==>
      Run(cfg, args, env) == RunOutcome(false, Some(Wrap(SymlinkContext, env.currentBin.error)), [ResolveBinary])
    ensures env.currentBin.Ok? && env.ensureBinary.Some? ==>
      Run(cfg, args, env) ==
        RunOutcome(false, Some(Wrap(InvalidBinaryContext, env.ensureBinary.value)),
                   [ResolveBinary, CheckBinary(env.currentBin.value)])
    ensures env.currentBin.Ok? && env.ensureBinary.None? && env.start.Some? ==>
      var bin := env.currentBin.value;
      Run(cfg, args, env) ==
        RunOutcome(false, Some(Wrap(LaunchContext(bin, args), env.start.value)),
                   [ResolveBinary, CheckBinary(bin), StartProcess(bin, args)])
  {
  }

  /** Whatever stage fails first, the error a failed start reports keeps the
      collaborator's error on its Unwrap chain and ends with its text. */
  lemma RunStartFailureKeepsCause(cfg: Config, args: seq<string>, env: StageOutcomes, cause: Error)
    requires env.currentBin == Err(cause) ||
             (env.currentBin.Ok? && env.ensureBinary == Some(cause)) ||
             (env.currentBin.Ok? && env.ensureBinary.None? && env.start == Some(cause))
    ensures Run(cfg, args, env).err.Some?
    ensures Wraps(Run(cfg, args, env).err.value, cause)
    ensures IsSuffix(Message(cause), Message(Run(cfg, args, env).err.value))
  {
  }

  /** Once the process runs, the wait's steps follow the start and decide
      the rest: unless the wait returned (true, nil), the run ends with
      (false, waitErr) before any backup or upgrade. */
  lemma RunAfterWait(cfg: Config, args: seq<string>, env: StageOutcomes)
    requires Started(env)
    ensures var w := WaitForUpgradeOrExit(cfg.upgradeName, env.event, env.checkUpdate);
      var bin := env.currentBin.value;
      var r := Run(cfg, args, env);
      r.trace[..3 + |w.steps|] == [ResolveBinary, CheckBinary(bin), StartProcess(bin, args)] + w.steps &&
      (!w.needsUpdate ==> r.needsRestart == false && r.err == w.err && |r.trace| == 3 + |w.steps|)
  {
  }

  /** The backup is taken exactly when the process was started, the wait
      asked for an upgrade and backups are not switched off. */
  lemma RunBackupIffUpgrade(cfg: Config, args: seq<string>, env: StageOutcomes)
    ensures BackupStep(cfg, env.date) in Run(cfg, args, env).trace <==>
      Started(env) && !cfg.unsafeSkipBackup &&
      WaitForUpgradeOrExit(cfg.upgradeName, env.event, env.checkUpdate).needsUpdate
  {
  }

  /** A failed backup withholds both the upgrade and the restart. */
  lemma RunBackupFailure(cfg: Config, args: seq<string>, env: StageOutcomes)
    requires BackupStep(cfg, env.date) in Run(cfg, args, env).trace && env.copy.Some?
    ensures var r := Run(cfg, args, env);
      r.needsRestart == false && r.err == Some(Wrap(BackupContext, env.copy.value)) &&
      ApplyUpgrade !in r.trace
  {
  }

  /** A started daemon that exits cleanly ends the run with (false, nil);
      the watcher is stopped without being asked about the upgrade, and no
      backup is taken. */
  lemma RunCleanExit(cfg: Config, args: seq<string>, env: StageOutcomes)
    requires Started(env) && env.event == ProcessExited(None)
    ensures var r := Run(cfg, args, env);
      !r.needsRestart && r.err == None && r.trace[3..] == [ObserveExit, StopWatcher]
  {
  }

  /** A started daemon that crashes: the re-check of the upgrade file
      decides.  A match turns the crash into an upgrade (backup, then
      DoUpgrade); no match surfaces the crash error unchanged. */
  lemma RunCrash(cfg: Config, args: seq<string>, env: StageOutcomes, crash: Error)
    requires Started(env) && env.event == ProcessExited(Some(crash))
    ensures var r := Run(cfg, args, env);
      CheckUpdate(cfg.upgradeName) in r.trace &&
      (!env.checkUpdate ==> !r.needsRestart && r.err == Some(crash)) &&
      (env.checkUpdate && (cfg.unsafeSkipBackup || env.copy.None?) ==>
         r.needsRestart && r.err == env.upgrade)
  {
  }

  /** Home /data/home, backups on, upgrade v2 notified while the daemon runs
      "start": the daemon is killed, /data/home/data is copied to
      /data/home/data-backup-<date>, and the run asks for a restart. */
  lemma RunUpgradeScenario(bin: string, date: string, kill: Option<Error>)
    ensures var cfg := Config("/data/home", false, "v2");
      var env := StageOutcomes(Ok(bin), None, None, UpgradeNotified(kill), false, date, None, None);
      Run(cfg, ["start"], env) ==
        RunOutcome(true, None,
          [ResolveBinary, CheckBinary(bin), StartProcess(bin, ["start"]), KillProcess,
           CopyData("/data/home/data", "/data/home/data-backup-" + date), ApplyUpgrade])
  {
    assert BackupSource("/data/home") == "/data/home/data";
    assert BackupDest("/data/home", date) == "/data/home/data-backup-" + date;
  }
}
