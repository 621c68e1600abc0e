/**
 * One pass of the body of `UpdaterThread.run`: check, then (when restarts
 * are on) capture and close the matching processes, install, relaunch what
 * was captured, and contain any exception at the end of the pass.
 *
 * `CycleSpec` says what a pass does, as an outcome and a trace; the method
 * `RunCycle` does it step by step, as the source does, and is proved to
 * agree with `CycleSpec`. The properties of a pass are proved about
 * `CycleSpec` in the module CycleProperties.
 */
module Cycle {
  import opened Wrappers
  import opened Processes
  import opened Actions
  import opened Pip

  /** The command-line options of the updater. */
  datatype Config = Config(
    packageName: string,
    extraIndexUrl: string,
    interval: int,
    delayFirst: int,
    restart: bool,
    processName: string,
    processCmdline: string)

  /**
   * What the outside world answers during one pass: how the dry run and the
   * install end, the process table, and the captured command lines whose
   * relaunch raises (besides an empty one, which `Popen` always rejects).
   */
  datatype Env = Env(
    check: CheckRun,
    table: seq<ProcessInfo>,
    install: InstallRun,
    unlaunchable: set<Snapshot>)

  datatype Outcome = UpToDate | Updated(restarted: bool) | Failed(failure: Failure)

  datatype CycleResult = CycleResult(outcome: Outcome, trace: seq<Action>)

  /** Restarting is gated on the flag and a non-empty process-name filter only. */
  predicate RestartEnabled(cfg: Config)
  {
    cfg.restart && cfg.processName != ""
  }

  /** Capturing one process's command line and working directory. */
  function CaptureStep(p: ProcessInfo): StepResult<Snapshot>
  {
    match p.snapshot
    case None => Raise(CaptureError(p.pid), [])
    case Some(s) => Proceed([s], [Captured(p.pid, s)])
  }

  /** Logging the close of one process by name, then terminating it. */
  function CloseStep(p: ProcessInfo): StepResult<()>
  {
    match p.closeName
    case None => Raise(CloseError(p.pid), [])
    case Some(name) =>
      if p.terminates then Proceed([], [Log(ClosingProcess(name)), Terminate(p.pid)])
      else Raise(CloseError(p.pid), [Log(ClosingProcess(name))])
  }

  /** `Popen` starts a snapshot's command unless the command line is empty or the start fails. */
  predicate Launchable(s: Snapshot, unlaunchable: set<Snapshot>)
  {
    s.argv != [] && s !in unlaunchable
  }

  /** Relaunching one captured process, detached. */
  function Relauncher(unlaunchable: set<Snapshot>): Snapshot -> StepResult<()>
  {
    s => if Launchable(s, unlaunchable) then Proceed([], [Relaunch(s)]) else Raise(RelaunchError(s), [])
  }

  /**
   * Before the install: when restarting, log, query the processes, capture
   * every match, then close every match; the captured snapshots are the
   * products.
   */
  function Preparation(cfg: Config, env: Env): Sweep<Snapshot>
  {
    if !RestartEnabled(cfg) then Completed([], [])
    else
      var processes := Selected(cfg.processName, cfg.processCmdline, env.table);
      var lead := [Log(ShuttingDown), Query(cfg.processName, cfg.processCmdline)];
      match RunSweep(processes, CaptureStep)
      case Aborted(f, t) => Aborted(f, lead + t)
      case Completed(closed, t) =>
        match RunSweep(processes, CloseStep)
        case Aborted(f, t') => Aborted(f, lead + t + t')
        case Completed(_, t') => Completed(closed, lead + t + t')
  }

  /** After the install: when restarting, log and relaunch the captured processes in order. */
  function Restart(cfg: Config, closed: seq<Snapshot>, unlaunchable: set<Snapshot>): Sweep<()>
  {
    if !RestartEnabled(cfg) then Completed([], [])
    else
      match RunSweep(closed, Relauncher(unlaunchable))
      case Aborted(f, t) => Aborted(f, [Log(Restarting)] + t)
      case Completed(_, t) => Completed([], [Log(Restarting)] + t)
  }

  /** An exception caught at the end of the pass: it is logged and ends the pass. */
  function Fail(f: Failure, t: seq<Action>): CycleResult
  {
    CycleResult(Failed(f), t + [Log(Unhandled(f))])
  }

  /** The actions of the dry-run check: the log line, then the subprocess when it started. */
  function CheckTrace(cfg: Config, check: CheckRun): seq<Action>
  {
    [Log(CheckingForUpdates)]
    + (if check.CheckExited? then [Check(CheckCommand(cfg.packageName, cfg.extraIndexUrl))] else [])
  }

  /** One pass of the update loop. */
  function CycleSpec(cfg: Config, env: Env): CycleResult
  {
    var checked := CheckTrace(cfg, env.check);
    match CheckUpToDate(env.check)
    case None => Fail(CheckError, checked)
    case Some(upToDate) =>
      if upToDate then CycleResult(UpToDate, checked + [Log(AlreadyUpToDate)])
      else
        match Preparation(cfg, env)
        case Aborted(f, t) => Fail(f, checked + t)
        case Completed(closed, t) =>
          var installed := checked + t + InstallTrace(cfg.packageName, cfg.extraIndexUrl, env.install);
          if env.install.InstallNotStarted? then Fail(InstallError, installed)
          else
            match Restart(cfg, closed, env.unlaunchable)
            case Aborted(f, t') => Fail(f, installed + t')
            case Completed(_, t') => CycleResult(Updated(RestartEnabled(cfg)), installed + t' + [Log(Complete)])
  }

  /**
   * The `closed_processes` comprehension of `UpdaterThread.run`: it reads
   * each process's command line and working directory; a raise ends it
   * with `failure`.
   */
  method CaptureProcesses(processes: seq<ProcessInfo>) returns (failure: Option<Failure>, closed: seq<Snapshot>, trace: seq<Action>)
    ensures failure.None? ==> RunSweep(processes, CaptureStep) == Completed(closed, trace)
    ensures failure.Some? ==> RunSweep(processes, CaptureStep) == Aborted(failure.value, trace)
  {
    failure, closed, trace := None, [], [];
    var i := 0;
    while i < |processes| && failure.None?
      invariant 0 <= i <= |processes|
      invariant failure.None? ==> RunSweep(processes[..i], CaptureStep) == Completed(closed, trace)
      invariant failure.Some? ==> RunSweep(processes[..i], CaptureStep) == Aborted(failure.value, trace)
    {
      SweepStep(processes, i, CaptureStep);
      var p := processes[i];
      if p.snapshot.None? {
        failure := Some(CaptureError(p.pid));
      } else {
        closed := closed + [p.snapshot.value];
        trace := trace + [Captured(p.pid, p.snapshot.value)];
      }
      i := i + 1;
    }
    if failure.Some? {
      SweepAbortSticky(processes, i, CaptureStep);
    } else {
      assert processes[..i] == processes;
    }
  }

  /**
   * The closing loop of `UpdaterThread.run`: log each process's name, then
   * terminate it; a raise ends the loop with `failure`.
   */
  method TerminateProcesses(processes: seq<ProcessInfo>) returns (failure: Option<Failure>, trace: seq<Action>)
    ensures failure.None? ==> RunSweep(processes, CloseStep) == Completed([], trace)
    ensures failure.Some? ==> RunSweep(processes, CloseStep) == Aborted(failure.value, trace)
  {
    failure, trace := None, [];
    var i := 0;
    while i < |processes| && failure.None?
      invariant 0 <= i <= |processes|
      invariant failure.None? ==> RunSweep(processes[..i], CloseStep) == Completed([], trace)
      invariant failure.Some? ==> RunSweep(processes[..i], CloseStep) == Aborted(failure.value, trace)
    {
      SweepStep(processes, i, CloseStep);
      var p := processes[i];
      match p.closeName {
        case None =>
          failure := Some(CloseError(p.pid));
        case Some(name) =>
          trace := trace + [Log(ClosingProcess(name))];
          if p.terminates {
            trace := trace + [Terminate(p.pid)];
          } else {
            failure := Some(CloseError(p.pid));
          }
      }
      i := i + 1;
    }
    if failure.Some? {
      SweepAbortSticky(processes, i, CloseStep);
    } else {
      assert processes[..i] == processes;
    }
  }

  /**
   * The shutdown branch of `UpdaterThread.run`: log, query the matching
   * processes, capture them all, then close them one by one. A raise anywhere ends the step with `failure`.
   */
  method CloseProcesses(cfg: Config, env: Env) returns (failure: Option<Failure>, closed: seq<Snapshot>, trace: seq<Action>)
    requires RestartEnabled(cfg)
    ensures failure.None? ==> Preparation(cfg, env) == Completed(closed, trace)
    ensures failure.Some? ==> Preparation(cfg, env) == Aborted(failure.value, trace)
  {
    var lead := [Log(ShuttingDown), Query(cfg.processName, cfg.processCmdline)];
    var processes := GetRunningProcesses(cfg.processName, cfg.processCmdline, env.table);
    var captured;
    failure, closed, captured := CaptureProcesses(processes);
    trace := lead + captured;
    if failure.None? {
      var terminated;
      failure, terminated := TerminateProcesses(processes);
      trace := trace + terminated;
    }
  }

  /** The restart branch of `UpdaterThread.run`: log, then start each captured command in its captured directory. */
  method RestartProcesses(cfg: Config, closed: seq<Snapshot>, unlaunchable: set<Snapshot>)
    returns (failure: Option<Failure>, trace: seq<Action>)
    requires RestartEnabled(cfg)
    ensures failure.None? ==> Restart(cfg, closed, unlaunchable) == Completed([], trace)
    ensures failure.Some? ==> Restart(cfg, closed, unlaunchable) == Aborted(failure.value, trace)
  {
    failure := None;
    var relaunch := Relauncher(unlaunchable);
    var started: seq<Action> := [];
    var i := 0;
    while i < |closed| && failure.None?
      invariant 0 <= i <= |closed|
      invariant failure.None? ==> RunSweep(closed[..i], relaunch) == Completed([], started)
      invariant failure.Some? ==> RunSweep(closed[..i], relaunch) == Aborted(failure.value, started)
    {
      SweepStep(closed, i, relaunch);
      var s := closed[i];
      if s.argv == [] || s in unlaunchable {
        failure := Some(RelaunchError(s));
      } else {
        started := started + [Relaunch(s)];
      }
      i := i + 1;
    }
    if failure.Some? {
      SweepAbortSticky(closed, i, relaunch);
    } else {
      assert closed[..i] == closed;
    }
    trace := [Log(Restarting)] + started;
  }

  /** The body of the `while True` loop of `UpdaterThread.run`. */
  method RunCycle(cfg: Config, env: Env) returns (outcome: Outcome, trace: seq<Action>)
    ensures CycleResult(outcome, trace) == CycleSpec(cfg, env)
  {
    var failure: Option<Failure> := None;
    outcome := UpToDate;
    trace := [Log(CheckingForUpdates)];
    if env.check.CheckExited? {
      trace := trace + [Check(CheckCommand(cfg.packageName, cfg.extraIndexUrl))];
    }
    ghost var checked := trace;
    assert checked == CheckTrace(cfg, env.check);
    var upToDate := CheckUpToDate(env.check);
    if upToDate.None? {
      failure := Some(CheckError);
    } else if upToDate.value {
      trace := trace + [Log(AlreadyUpToDate)];
    } else {
      ghost var prep := Preparation(cfg, env);
      var restart := cfg.restart && cfg.processName != "";
      var closed: seq<Snapshot> := [];
      if restart {
        var prepared;
        failure, closed, prepared := CloseProcesses(cfg, env);
        trace := trace + prepared;
      }
      assert trace == checked + prep.trace;
      assert failure.None? <==> prep.Completed?;
      if failure.None? {
        assert closed == prep.products;
        var started, installed := InstallUpdates(cfg.packageName, cfg.extraIndexUrl, env.install);
        trace := trace + installed;
        if !started {
          failure := Some(InstallError);
        }
      }
      ghost var afterInstall := trace;
      ghost var rest := Restart(cfg, closed, env.unlaunchable);
      if failure.None? && restart {
        var relaunched;
        failure, relaunched := RestartProcesses(cfg, closed, env.unlaunchable);
        trace := trace + relaunched;
      }
      if failure.None? {
        assert trace == afterInstall + rest.trace;
        trace := trace + [Log(Complete)];
        outcome := Updated(restart);
      }
    }
    if failure.Some? {
      outcome := Failed(failure.value);
      trace := trace + [Log(Unhandled(failure.value))];
    }
  }
}
