/**
 * What one pass of the update loop guarantees, proved about `CycleSpec`
 * (and so, through its contract, about `RunCycle`).
 */
module CycleProperties {
  import opened Wrappers
  import opened Text
  import opened Processes
  import opened Actions
  import opened Pip
  import opened Cycle

  /**
   * Capturing records one `Captured` per process, in order; when no
   * capture raised, the snapshots are the products and every process was
   * captured.
   */
  lemma {:induction false} CaptureSweepFacts(ps: seq<ProcessInfo>)
    ensures Only(RunSweep(ps, CaptureStep).trace, {Capturing})
    ensures RunSweep(ps, CaptureStep).Completed? ==>
      CapturedOf(RunSweep(ps, CaptureStep).trace) == RunSweep(ps, CaptureStep).products
      && CapturedPids(RunSweep(ps, CaptureStep).trace) == Pids(ps)
    decreases |ps|
  {
    if ps != [] {
      var front := ps[..|ps| - 1];
      var last := ps[|ps| - 1];
      CaptureSweepFacts(front);
      var r0 := RunSweep(front, CaptureStep);
      if r0.Completed? && last.snapshot.Some? {
        var e := [Captured(last.pid, last.snapshot.value)];
        ExtractConcat(r0.trace, e, CapturedSnapshot);
        ExtractConcat(r0.trace, e, CapturedPid);
      }
    }
  }

  /** Closing only logs and terminates. */
  lemma CloseSweepFacts(ps: seq<ProcessInfo>)
    ensures Only(RunSweep(ps, CloseStep).trace, {Logging, Terminating})
  {
    SweepOnly(ps, CloseStep, {Logging, Terminating});
  }

  /** Relaunching only starts processes. */
  lemma RelaunchSweepOnly(closed: seq<Snapshot>, unlaunchable: set<Snapshot>)
    ensures Only(RunSweep(closed, Relauncher(unlaunchable)).trace, {Relaunching})
  {
    SweepOnly(closed, Relauncher(unlaunchable), {Relaunching});
  }

  /** Closing one process terminates it exactly when the step proceeds. */
  lemma CloseStepTerminates(p: ProcessInfo)
    ensures TerminatedPids(CloseStep(p).emitted) == (if CloseStep(p).Proceed? then [p.pid] else [])
  {
    if p.closeName.Some? {
      var e := [Log(ClosingProcess(p.closeName.value))];
      assert e[..0] == [];
      if p.terminates {
        assert CloseStep(p).emitted == e + [Terminate(p.pid)];
        assert [Terminate(p.pid)][..0] == [];
        ExtractConcat(e, [Terminate(p.pid)], TerminatedPid);
      }
    }
  }

  /** Each step of the close loop terminates its own process exactly when it proceeds. */
  lemma CloseStepsTerminate(ps: seq<ProcessInfo>)
    ensures forall p :: p in ps ==>
      Extract(CloseStep(p).emitted, TerminatedPid) == (if CloseStep(p).Proceed? then [p.pid] else [])
  {
    forall p | p in ps
      ensures Extract(CloseStep(p).emitted, TerminatedPid) == (if CloseStep(p).Proceed? then [p.pid] else [])
    {
      CloseStepTerminates(p);
    }
  }

  /**
   * The terminated processes are a prefix of the ones to close, in order,
   * and all of them when nothing raised.
   */
  lemma CloseSweepOrder(ps: seq<ProcessInfo>)
    ensures IsPrefix(TerminatedPids(RunSweep(ps, CloseStep).trace), Pids(ps))
    ensures RunSweep(ps, CloseStep).Completed? ==> TerminatedPids(RunSweep(ps, CloseStep).trace) == Pids(ps)
  {
    CloseStepsTerminate(ps);
    SweepExtract(ps, CloseStep, TerminatedPid, (p: ProcessInfo) => p.pid);
    var t := TerminatedPids(RunSweep(ps, CloseStep).trace);
    var pids := Pids(ps);
    forall k | 0 <= k < |t| ensures t[k] == pids[k] {
      assert t[k] == ps[k].pid;
    }
    assert t == pids[..|t|];
  }

  /**
   * A close loop that raised stopped at the first process it did not
   * terminate, whose `name()` or `terminate()` raised: no later process is
   * closed.
   */
  lemma CloseSweepAbort(ps: seq<ProcessInfo>)
    ensures RunSweep(ps, CloseStep).Aborted? ==>
      var n := |TerminatedPids(RunSweep(ps, CloseStep).trace)|;
      n < |ps| && RunSweep(ps, CloseStep).failure == CloseError(ps[n].pid)
  {
    CloseStepsTerminate(ps);
    SweepExtractAbort(ps, CloseStep, TerminatedPid, (p: ProcessInfo) => p.pid);
  }

  /** Each step of the relaunch loop starts its own snapshot exactly when it proceeds. */
  lemma RelaunchStepsStart(closed: seq<Snapshot>, unlaunchable: set<Snapshot>)
    ensures forall s :: s in closed ==>
      Extract(Relauncher(unlaunchable)(s).emitted, RelaunchedSnapshot)
      == (if Relauncher(unlaunchable)(s).Proceed? then [s] else [])
  {
    forall s | s in closed
      ensures Extract(Relauncher(unlaunchable)(s).emitted, RelaunchedSnapshot)
              == (if Relauncher(unlaunchable)(s).Proceed? then [s] else [])
    {
      assert [Relaunch(s)][..0] == [];
    }
  }

  /**
   * Relaunching starts a prefix of the snapshots, in order, and all of
   * them when no start raised.
   */
  lemma RelaunchSweepOrder(closed: seq<Snapshot>, unlaunchable: set<Snapshot>)
    ensures IsPrefix(RelaunchedOf(RunSweep(closed, Relauncher(unlaunchable)).trace), closed)
    ensures RunSweep(closed, Relauncher(unlaunchable)).Completed? ==>
      RelaunchedOf(RunSweep(closed, Relauncher(unlaunchable)).trace) == closed
  {
    RelaunchStepsStart(closed, unlaunchable);
    SweepExtract(closed, Relauncher(unlaunchable), RelaunchedSnapshot, (s: Snapshot) => s);
    var t := RelaunchedOf(RunSweep(closed, Relauncher(unlaunchable)).trace);
    assert t == closed[..|t|];
  }

  /**
   * A relaunch loop that raised stopped at the first snapshot it did not
   * start, whose `Popen` raised: no later snapshot is started.
   */
  lemma RelaunchSweepAbort(closed: seq<Snapshot>, unlaunchable: set<Snapshot>)
    ensures RunSweep(closed, Relauncher(unlaunchable)).Aborted? ==>
      var n := |RelaunchedOf(RunSweep(closed, Relauncher(unlaunchable)).trace)|;
      n < |closed| && !Launchable(closed[n], unlaunchable)
      && RunSweep(closed, Relauncher(unlaunchable)).failure == RelaunchError(closed[n])
  {
    RelaunchStepsStart(closed, unlaunchable);
    SweepExtractAbort(closed, Relauncher(unlaunchable), RelaunchedSnapshot, (s: Snapshot) => s);
  }

  /**
   * When restarting, the actions before the install are the lead-in, the
   * capture loop's actions and, when every capture succeeded, the close
   * loop's actions.
   */
  lemma PreparationParts(cfg: Config, env: Env) returns (lead: seq<Action>, capture: Sweep<Snapshot>, close: seq<Action>)
    requires RestartEnabled(cfg)
    ensures lead == [Log(ShuttingDown), Query(cfg.processName, cfg.processCmdline)]
    ensures capture == RunSweep(Selected(cfg.processName, cfg.processCmdline, env.table), CaptureStep)
    ensures Preparation(cfg, env).trace == lead + capture.trace + close
    ensures capture.Aborted? ==> close == [] && Preparation(cfg, env).Aborted?
    ensures capture.Completed? ==>
      close == RunSweep(Selected(cfg.processName, cfg.processCmdline, env.table), CloseStep).trace
      && (Preparation(cfg, env).Completed? <==>
          RunSweep(Selected(cfg.processName, cfg.processCmdline, env.table), CloseStep).Completed?)
      && (Preparation(cfg, env).Completed? ==> Preparation(cfg, env).products == capture.products)
  {
    var processes := Selected(cfg.processName, cfg.processCmdline, env.table);
    lead := [Log(ShuttingDown), Query(cfg.processName, cfg.processCmdline)];
    capture := RunSweep(processes, CaptureStep);
    if capture.Aborted? {
      close := [];
      assert lead + capture.trace + close == lead + capture.trace;
    } else {
      close := RunSweep(processes, CloseStep).trace;
    }
  }

  /** Before the install only the lead-in, captures and closes happen. */
  lemma PreparationKinds(cfg: Config, env: Env)
    requires RestartEnabled(cfg)
    ensures Only(Preparation(cfg, env).trace, {Logging, Querying, Capturing, Terminating})
  {
    var processes := Selected(cfg.processName, cfg.processCmdline, env.table);
    var lead, capture, close := PreparationParts(cfg, env);
    CaptureSweepFacts(processes);
    CloseSweepFacts(processes);
  }

  /** Before the install every capture comes before every termination. */
  lemma PreparationOrdered(cfg: Config, env: Env)
    requires RestartEnabled(cfg)
    ensures Precedes(Preparation(cfg, env).trace, Capturing, Terminating)
  {
    var processes := Selected(cfg.processName, cfg.processCmdline, env.table);
    var lead, capture, close := PreparationParts(cfg, env);
    CaptureSweepFacts(processes);
    CloseSweepFacts(processes);
    PrecedesAcross(lead + capture.trace, close, Capturing, Terminating);
  }

  /** What the captures and terminations of the lead-in, capture and close parts project to. */
  lemma PreparationProjections(name: string, cmdline: string, capture: seq<Action>, close: seq<Action>)
    requires Only(capture, {Capturing}) && Only(close, {Logging, Terminating})
    ensures var lead := [Log(ShuttingDown), Query(name, cmdline)];
      CapturedOf(lead + capture + close) == CapturedOf(capture)
      && CapturedPids(lead + capture + close) == CapturedPids(capture)
      && TerminatedPids(lead + capture + close) == TerminatedPids(close)
  {
    var lead := [Log(ShuttingDown), Query(name, cmdline)];
    ProjectionsOfOnly(lead, {Logging, Querying});
    ProjectionsOfOnly(capture, {Capturing});
    ProjectionsOfOnly(close, {Logging, Terminating});
    ExtractConcat(lead, capture, CapturedSnapshot);
    ExtractConcat(lead + capture, close, CapturedSnapshot);
    ExtractConcat(lead, capture, CapturedPid);
    ExtractConcat(lead + capture, close, CapturedPid);
    ExtractConcat(lead, capture, TerminatedPid);
    ExtractConcat(lead + capture, close, TerminatedPid);
  }

  /** The snapshots carried to the restart are the captured ones. */
  lemma PreparationCaptures(cfg: Config, env: Env)
    requires RestartEnabled(cfg)
    ensures Preparation(cfg, env).Completed? ==> CapturedOf(Preparation(cfg, env).trace) == Preparation(cfg, env).products
  {
    var processes := Selected(cfg.processName, cfg.processCmdline, env.table);
    var lead, capture, close := PreparationParts(cfg, env);
    if capture.Completed? {
      CaptureSweepFacts(processes);
      CloseSweepFacts(processes);
      PreparationProjections(cfg.processName, cfg.processCmdline, capture.trace, close);
    }
  }

  /** A termination happens only once every matching process was captured. */
  lemma PreparationCapturesAll(cfg: Config, env: Env)
    requires RestartEnabled(cfg)
    ensures !Absent(Preparation(cfg, env).trace, Terminating) ==>
      CapturedPids(Preparation(cfg, env).trace) == Pids(Selected(cfg.processName, cfg.processCmdline, env.table))
  {
    var processes := Selected(cfg.processName, cfg.processCmdline, env.table);
    var lead, capture, close := PreparationParts(cfg, env);
    CaptureSweepFacts(processes);
    if capture.Completed? {
      CloseSweepFacts(processes);
      PreparationProjections(cfg.processName, cfg.processCmdline, capture.trace, close);
    } else {
      assert Absent(lead + capture.trace + close, Terminating);
    }
  }

  /**
   * The terminated processes are a prefix of the matching ones, in order,
   * and all of them when nothing raised before the install.
   */
  lemma PreparationTerminates(cfg: Config, env: Env)
    requires RestartEnabled(cfg)
    ensures IsPrefix(TerminatedPids(Preparation(cfg, env).trace), Pids(Selected(cfg.processName, cfg.processCmdline, env.table)))
    ensures Preparation(cfg, env).Completed? ==>
      TerminatedPids(Preparation(cfg, env).trace) == Pids(Selected(cfg.processName, cfg.processCmdline, env.table))
  {
    var processes := Selected(cfg.processName, cfg.processCmdline, env.table);
    var lead, capture, close := PreparationParts(cfg, env);
    CaptureSweepFacts(processes);
    CloseSweepFacts(processes);
    CloseSweepOrder(processes);
    PreparationProjections(cfg.processName, cfg.processCmdline, capture.trace, close);
  }

  /**
   * The shutdown ends early only on a failed capture or close, and a failed
   * capture ends it before any termination.
   */
  lemma PreparationFailure(cfg: Config, env: Env)
    requires RestartEnabled(cfg)
    ensures Preparation(cfg, env).Aborted? ==>
      Preparation(cfg, env).failure.CaptureError? || Preparation(cfg, env).failure.CloseError?
    ensures Preparation(cfg, env).Aborted? && Preparation(cfg, env).failure.CaptureError? ==>
      Absent(Preparation(cfg, env).trace, Terminating)
  {
    var processes := Selected(cfg.processName, cfg.processCmdline, env.table);
    var lead, capture, close := PreparationParts(cfg, env);
    if capture.Aborted? {
      SweepFailure(processes, CaptureStep);
      CaptureSweepFacts(processes);
      assert Preparation(cfg, env).trace == lead + capture.trace;
    } else if Preparation(cfg, env).Aborted? {
      SweepFailure(processes, CloseStep);
    }
  }

  /**
   * A shutdown that failed closing a process stopped at it: the processes
   * terminated are exactly the selected ones before it.
   */
  lemma PreparationCloseAbort(cfg: Config, env: Env)
    requires RestartEnabled(cfg)
    ensures Preparation(cfg, env).Aborted? && Preparation(cfg, env).failure.CloseError? ==>
      var n := |TerminatedPids(Preparation(cfg, env).trace)|;
      n < |Pids(Selected(cfg.processName, cfg.processCmdline, env.table))|
      && Pids(Selected(cfg.processName, cfg.processCmdline, env.table))[n] == Preparation(cfg, env).failure.pid
  {
    var processes := Selected(cfg.processName, cfg.processCmdline, env.table);
    var lead, capture, close := PreparationParts(cfg, env);
    if capture.Aborted? {
      SweepFailure(processes, CaptureStep);
    } else if Preparation(cfg, env).Aborted? {
      CaptureSweepFacts(processes);
      CloseSweepFacts(processes);
      CloseSweepAbort(processes);
      PreparationProjections(cfg.processName, cfg.processCmdline, capture.trace, close);
    }
  }

  /** After the install: relaunches start a prefix of the captured snapshots, all of them on success. */
  lemma RestartFacts(cfg: Config, closed: seq<Snapshot>, unlaunchable: set<Snapshot>)
    ensures Only(Restart(cfg, closed, unlaunchable).trace, {Logging, Relaunching})
    ensures !RestartEnabled(cfg) ==> Restart(cfg, closed, unlaunchable) == Completed([], [])
    ensures IsPrefix(RelaunchedOf(Restart(cfg, closed, unlaunchable).trace), closed)
    ensures RestartEnabled(cfg) && Restart(cfg, closed, unlaunchable).Completed? ==>
      RelaunchedOf(Restart(cfg, closed, unlaunchable).trace) == closed
  {
    if RestartEnabled(cfg) {
      var r := RunSweep(closed, Relauncher(unlaunchable));
      RelaunchSweepOnly(closed, unlaunchable);
      RelaunchSweepOrder(closed, unlaunchable);
      ExtractConcat([Log(Restarting)], r.trace, RelaunchedSnapshot);
    }
  }

  /** The restart ends early only on a relaunch that raised. */
  lemma RestartFailure(cfg: Config, closed: seq<Snapshot>, unlaunchable: set<Snapshot>)
    ensures Restart(cfg, closed, unlaunchable).Aborted? ==> Restart(cfg, closed, unlaunchable).failure.RelaunchError?
  {
    if Restart(cfg, closed, unlaunchable).Aborted? {
      SweepFailure(closed, Relauncher(unlaunchable));
    }
  }

  /**
   * A restart that failed stopped at the snapshot whose `Popen` raised: the
   * snapshots started are exactly the ones before it.
   */
  lemma RestartAbort(cfg: Config, closed: seq<Snapshot>, unlaunchable: set<Snapshot>)
    ensures Restart(cfg, closed, unlaunchable).Aborted? ==>
      var n := |RelaunchedOf(Restart(cfg, closed, unlaunchable).trace)|;
      n < |closed| && Restart(cfg, closed, unlaunchable).failure == RelaunchError(closed[n])
  {
    if RestartEnabled(cfg) {
      var r := RunSweep(closed, Relauncher(unlaunchable));
      RelaunchSweepAbort(closed, unlaunchable);
      assert [Log(Restarting)][..0] == [];
      ExtractConcat([Log(Restarting)], r.trace, RelaunchedSnapshot);
    }
  }

  /** The shutdown phase of a pass: what happens before the install when restarting. */
  function ShutdownPhase(cfg: Config, env: Env): seq<Action>
  {
    if CheckUpToDate(env.check) == Some(false) && RestartEnabled(cfg) then Preparation(cfg, env).trace else []
  }

  /** The install phase of a pass: reached once an update is pending and the shutdown completed. */
  function InstallPhase(cfg: Config, env: Env): seq<Action>
  {
    if CheckUpToDate(env.check) == Some(false) && Preparation(cfg, env).Completed?
    then InstallTrace(cfg.packageName, cfg.extraIndexUrl, env.install)
    else []
  }

  /** The restart phase of a pass: reached once pip ran, when restarting. */
  function RestartPhase(cfg: Config, env: Env): seq<Action>
  {
    if CheckUpToDate(env.check) == Some(false) && Preparation(cfg, env).Completed?
       && env.install.InstallExited? && RestartEnabled(cfg)
    then Restart(cfg, Preparation(cfg, env).products, env.unlaunchable).trace
    else []
  }

  /** The phases of a pass, one after the other, closed by the log line `m`. */
  function PhaseTrace(cfg: Config, env: Env, m: Message): seq<Action>
  {
    CheckTrace(cfg, env.check) + ShutdownPhase(cfg, env) + InstallPhase(cfg, env) + RestartPhase(cfg, env) + [Log(m)]
  }

  /**
   * A pass is the check, then the shutdown, the install and the restart
   * (each possibly empty), then one closing log line that says how it
   * ended.
   */
  lemma CycleParts(cfg: Config, env: Env) returns (m: Message)
    ensures CycleSpec(cfg, env).trace == PhaseTrace(cfg, env, m)
    ensures CycleSpec(cfg, env).outcome == UpToDate <==> CheckUpToDate(env.check) == Some(true)
    ensures CycleSpec(cfg, env).outcome == UpToDate ==> m == AlreadyUpToDate
    ensures CycleSpec(cfg, env).outcome.Updated? ==>
      m == Complete && CheckUpToDate(env.check) == Some(false) && Preparation(cfg, env).Completed?
      && env.install.InstallExited? && CycleSpec(cfg, env).outcome.restarted == RestartEnabled(cfg)
      && (RestartEnabled(cfg) ==> Restart(cfg, Preparation(cfg, env).products, env.unlaunchable).Completed?)
    ensures CycleSpec(cfg, env).outcome.Failed? ==> m == Unhandled(CycleSpec(cfg, env).outcome.failure)
  {
    var verdict := CheckUpToDate(env.check);
    if verdict.None? {
      m := Unhandled(CheckError);
    } else if verdict.value {
      m := AlreadyUpToDate;
    } else {
      var p := Preparation(cfg, env);
      if p.Aborted? {
        m := Unhandled(p.failure);
      } else if env.install.InstallNotStarted? {
        m := Unhandled(InstallError);
      } else {
        var r := Restart(cfg, p.products, env.unlaunchable);
        m := if r.Aborted? then Unhandled(r.failure) else Complete;
      }
    }
  }

  /**
   * Each failure names the step that raised it: a failed dry run is the
   * check's, a failed capture or close is the shutdown's, which then ended
   * early, and a failed relaunch is the restart's, reached after pip ran.
   */
  lemma FailureOrigin(cfg: Config, env: Env)
    ensures CycleSpec(cfg, env).outcome == Failed(CheckError) ==> CheckUpToDate(env.check).None?
    ensures (CycleSpec(cfg, env).outcome.Failed?
             && (CycleSpec(cfg, env).outcome.failure.CaptureError? || CycleSpec(cfg, env).outcome.failure.CloseError?)) ==>
      CheckUpToDate(env.check) == Some(false) && RestartEnabled(cfg) && Preparation(cfg, env).Aborted?
      && Preparation(cfg, env).failure == CycleSpec(cfg, env).outcome.failure
    ensures CycleSpec(cfg, env).outcome.Failed? && CycleSpec(cfg, env).outcome.failure.RelaunchError? ==>
      CheckUpToDate(env.check) == Some(false) && Preparation(cfg, env).Completed? && env.install.InstallExited?
      && RestartEnabled(cfg) && Restart(cfg, Preparation(cfg, env).products, env.unlaunchable).Aborted?
      && Restart(cfg, Preparation(cfg, env).products, env.unlaunchable).failure == CycleSpec(cfg, env).outcome.failure
  {
    if CheckUpToDate(env.check) == Some(false) && RestartEnabled(cfg) {
      PreparationFailure(cfg, env);
    }
    if CheckUpToDate(env.check) == Some(false) && Preparation(cfg, env).Completed? {
      RestartFailure(cfg, Preparation(cfg, env).products, env.unlaunchable);
    }
  }

  /** The kinds of action each phase of a pass performs. */
  lemma PhaseKinds(cfg: Config, env: Env)
    ensures Only(CheckTrace(cfg, env.check), {Logging, Checking})
    ensures Only(ShutdownPhase(cfg, env), {Logging, Querying, Capturing, Terminating})
    ensures Precedes(ShutdownPhase(cfg, env), Capturing, Terminating)
    ensures Only(InstallPhase(cfg, env), {Logging, Installing})
    ensures Only(RestartPhase(cfg, env), {Logging, Relaunching})
  {
    if CheckUpToDate(env.check) == Some(false) && RestartEnabled(cfg) {
      PreparationKinds(cfg, env);
      PreparationOrdered(cfg, env);
    }
    InstallTraceKinds(cfg.packageName, cfg.extraIndexUrl, env.install);
    if Preparation(cfg, env).Completed? {
      RestartFacts(cfg, Preparation(cfg, env).products, env.unlaunchable);
    }
  }

  /** A pass's captures and terminations are those of its shutdown phase. */
  lemma ShutdownProjections(checked: seq<Action>, prep: seq<Action>, install: seq<Action>, restart: seq<Action>, last: Action)
    requires Only(checked, {Logging, Checking})
    requires Only(install, {Logging, Installing})
    requires Only(restart, {Logging, Relaunching})
    requires KindOf(last) == Logging
    ensures CapturedOf(checked + prep + install + restart + [last]) == CapturedOf(prep)
    ensures CapturedPids(checked + prep + install + restart + [last]) == CapturedPids(prep)
    ensures TerminatedPids(checked + prep + install + restart + [last]) == TerminatedPids(prep)
  {
    assert CapturedOf(checked) == [] && CapturedPids(checked) == [] && TerminatedPids(checked) == [] by {
      ProjectionsOfOnly(checked, {Logging, Checking});
    }
    assert CapturedOf(install) == [] && CapturedPids(install) == [] && TerminatedPids(install) == [] by {
      ProjectionsOfOnly(install, {Logging, Installing});
    }
    assert CapturedOf(restart) == [] && CapturedPids(restart) == [] && TerminatedPids(restart) == [] by {
      ProjectionsOfOnly(restart, {Logging, Relaunching});
    }
    assert CapturedOf([last]) == [] && CapturedPids([last]) == [] && TerminatedPids([last]) == [] by {
      ProjectionsOfOnly([last], {Logging});
    }
    ExtractParts(checked, prep, install, restart, [last], CapturedSnapshot);
    ExtractParts(checked, prep, install, restart, [last], CapturedPid);
    ExtractParts(checked, prep, install, restart, [last], TerminatedPid);
  }

  /** Terminations, installs and relaunches each happen in one phase only. */
  lemma PhaseOfKind(checked: seq<Action>, prep: seq<Action>, install: seq<Action>, restart: seq<Action>, last: Action)
    requires Only(checked, {Logging, Checking})
    requires Only(prep, {Logging, Querying, Capturing, Terminating})
    requires Only(install, {Logging, Installing})
    requires Only(restart, {Logging, Relaunching})
    requires KindOf(last) == Logging
    ensures Absent(checked + prep + install + restart + [last], Terminating) <==> Absent(prep, Terminating)
    ensures Absent(checked + prep + install + restart + [last], Installing) <==> Absent(install, Installing)
    ensures Absent(checked + prep + install + restart + [last], Relaunching) <==> Absent(restart, Relaunching)
  {
    var t := checked + prep + install + restart + [last];
    AbsentAround(checked, prep, install + restart + [last], Terminating);
    assert t == checked + prep + (install + restart + [last]);
    AbsentAround(checked + prep, install, restart + [last], Installing);
    assert t == (checked + prep) + install + (restart + [last]);
    AbsentAround(checked + prep + install, restart, [last], Relaunching);
  }

  /** A pass's relaunches are those of its restart phase. */
  lemma RestartProjections(checked: seq<Action>, prep: seq<Action>, install: seq<Action>, restart: seq<Action>, last: Action)
    requires Only(checked, {Logging, Checking})
    requires Only(prep, {Logging, Querying, Capturing, Terminating})
    requires Only(install, {Logging, Installing})
    requires KindOf(last) == Logging
    ensures RelaunchedOf(checked + prep + install + restart + [last]) == RelaunchedOf(restart)
  {
    assert RelaunchedOf(checked) == [] by {
      ProjectionsOfOnly(checked, {Logging, Checking});
    }
    assert RelaunchedOf(prep) == [] by {
      ProjectionsOfOnly(prep, {Logging, Querying, Capturing, Terminating});
    }
    assert RelaunchedOf(install) == [] by {
      ProjectionsOfOnly(install, {Logging, Installing});
    }
    assert RelaunchedOf([last]) == [] by {
      ProjectionsOfOnly([last], {Logging});
    }
    ExtractParts(checked, prep, install, restart, [last], RelaunchedSnapshot);
  }

  /** Phases with these kinds of action, concatenated, keep the phase order. */
  lemma PhasesOrdered(checked: seq<Action>, prep: seq<Action>, install: seq<Action>, restart: seq<Action>, last: Action)
    requires Only(checked, {Logging, Checking})
    requires Only(prep, {Logging, Querying, Capturing, Terminating}) && Precedes(prep, Capturing, Terminating)
    requires Only(install, {Logging, Installing})
    requires Only(restart, {Logging, Relaunching})
    requires KindOf(last) == Logging
    ensures Precedes(checked + prep + install + restart + [last], Checking, Terminating)
    ensures Precedes(checked + prep + install + restart + [last], Capturing, Terminating)
    ensures Precedes(checked + prep + install + restart + [last], Terminating, Installing)
    ensures Precedes(checked + prep + install + restart + [last], Installing, Relaunching)
  {
    var t := checked + prep + install + restart + [last];
    var rest := install + restart + [last];
    assert t == checked + prep + rest;
    assert Only(rest, {Logging, Installing, Relaunching});
    PrecedesAcross(checked + prep, rest, Terminating, Installing);
    PrecedesAcross(checked, prep + rest, Checking, Terminating);
    assert t == checked + (prep + rest);
    PrecedesConcat(checked, prep, Capturing, Terminating);
    PrecedesConcat(checked + prep, rest, Capturing, Terminating);
    PrecedesAcross(checked + prep + install, restart + [last], Installing, Relaunching);
    assert t == checked + prep + install + (restart + [last]);
  }

  /** Phases with these kinds of action, concatenated, hold no wait. */
  lemma PhasesNeverWait(checked: seq<Action>, prep: seq<Action>, install: seq<Action>, restart: seq<Action>, last: Action)
    requires Only(checked, {Logging, Checking})
    requires Only(prep, {Logging, Querying, Capturing, Terminating})
    requires Only(install, {Logging, Installing})
    requires Only(restart, {Logging, Relaunching})
    requires KindOf(last) == Logging
    ensures Absent(checked + prep + install + restart + [last], Waiting)
    ensures WaitsOf(checked + prep + install + restart + [last]) == []
  {
    ExtractNothing(checked + prep + install + restart + [last], WaitedSeconds);
  }

  /**
   * The shutdown phase terminates a prefix of the processes it captured,
   * starts terminating only once all of them were captured, and terminates
   * all of them when it completes.
   */
  lemma ShutdownPhaseTerminates(cfg: Config, env: Env)
    ensures IsPrefix(TerminatedPids(ShutdownPhase(cfg, env)), CapturedPids(ShutdownPhase(cfg, env)))
    ensures !Absent(ShutdownPhase(cfg, env), Terminating) ==>
      CapturedPids(ShutdownPhase(cfg, env)) == Pids(Selected(cfg.processName, cfg.processCmdline, env.table))
    ensures CheckUpToDate(env.check) == Some(false) && Preparation(cfg, env).Completed? ==>
      TerminatedPids(ShutdownPhase(cfg, env))
      == (if RestartEnabled(cfg) then Pids(Selected(cfg.processName, cfg.processCmdline, env.table)) else [])
  {
    var prep := ShutdownPhase(cfg, env);
    if prep != [] {
      PreparationTerminates(cfg, env);
      PreparationCapturesAll(cfg, env);
      if Absent(prep, Terminating) {
        NoTerminations(prep);
      }
    } else {
      assert TerminatedPids(prep) == [];
    }
  }

  /**
   * The restart phase relaunches a prefix of what the shutdown phase
   * captured, and all of it when every relaunch succeeded.
   */
  lemma RestartPhaseRelaunches(cfg: Config, env: Env)
    ensures IsPrefix(RelaunchedOf(RestartPhase(cfg, env)), CapturedOf(ShutdownPhase(cfg, env)))
    ensures RestartPhase(cfg, env) != [] && Restart(cfg, Preparation(cfg, env).products, env.unlaunchable).Completed? ==>
      RelaunchedOf(RestartPhase(cfg, env)) == CapturedOf(ShutdownPhase(cfg, env))
  {
    if RestartPhase(cfg, env) != [] {
      RestartFacts(cfg, Preparation(cfg, env).products, env.unlaunchable);
      PreparationCaptures(cfg, env);
    } else {
      assert RelaunchedOf([]) == [];
    }
  }

  /**
   * A restart phase that failed stopped at the captured snapshot whose
   * relaunch raised: the ones relaunched are exactly the captured ones
   * before it.
   */
  lemma RestartPhaseAbort(cfg: Config, env: Env)
    ensures RestartPhase(cfg, env) != [] && Restart(cfg, Preparation(cfg, env).products, env.unlaunchable).Aborted? ==>
      var n := |RelaunchedOf(RestartPhase(cfg, env))|;
      n < |CapturedOf(ShutdownPhase(cfg, env))|
      && Restart(cfg, Preparation(cfg, env).products, env.unlaunchable).failure
         == RelaunchError(CapturedOf(ShutdownPhase(cfg, env))[n])
  {
    if RestartPhase(cfg, env) != [] {
      RestartAbort(cfg, Preparation(cfg, env).products, env.unlaunchable);
      PreparationCaptures(cfg, env);
    }
  }

  /**
   * What a pass's projections come to, phase by phase: captures and
   * terminations belong to the shutdown, relaunches to the restart, and no
   * phase waits.
   */
  lemma PhaseFacts(cfg: Config, env: Env, m: Message)
    ensures CapturedOf(PhaseTrace(cfg, env, m)) == CapturedOf(ShutdownPhase(cfg, env))
    ensures CapturedPids(PhaseTrace(cfg, env, m)) == CapturedPids(ShutdownPhase(cfg, env))
    ensures TerminatedPids(PhaseTrace(cfg, env, m)) == TerminatedPids(ShutdownPhase(cfg, env))
    ensures RelaunchedOf(PhaseTrace(cfg, env, m)) == RelaunchedOf(RestartPhase(cfg, env))
    ensures Absent(PhaseTrace(cfg, env, m), Terminating) <==> Absent(ShutdownPhase(cfg, env), Terminating)
    ensures Absent(PhaseTrace(cfg, env, m), Installing) <==> Absent(InstallPhase(cfg, env), Installing)
    ensures Absent(PhaseTrace(cfg, env, m), Relaunching) <==> Absent(RestartPhase(cfg, env), Relaunching)
    ensures Absent(ShutdownPhase(cfg, env), Terminating) ==> TerminatedPids(ShutdownPhase(cfg, env)) == []
    ensures Absent(PhaseTrace(cfg, env, m), Waiting)
    ensures WaitsOf(PhaseTrace(cfg, env, m)) == []
  {
    var checked, prep, install, restart := CheckTrace(cfg, env.check), ShutdownPhase(cfg, env), InstallPhase(cfg, env), RestartPhase(cfg, env);
    PhaseKinds(cfg, env);
    ShutdownProjections(checked, prep, install, restart, Log(m));
    RestartProjections(checked, prep, install, restart, Log(m));
    PhaseOfKind(checked, prep, install, restart, Log(m));
    PhasesNeverWait(checked, prep, install, restart, Log(m));
    if Absent(prep, Terminating) {
      NoTerminations(prep);
    }
  }

  /** Terminating needs a dry run that found an update. */
  lemma ShutdownReached(cfg: Config, env: Env)
    ensures !Absent(ShutdownPhase(cfg, env), Terminating) ==> CheckUpToDate(env.check) == Some(false)
  {
  }

  /** Relaunching needs pip to have started: a restart phase follows an install phase that ran pip. */
  lemma RestartReached(cfg: Config, env: Env)
    ensures !Absent(RestartPhase(cfg, env), Relaunching) ==> !Absent(InstallPhase(cfg, env), Installing)
  {
    if RestartPhase(cfg, env) != [] {
      InstallTraceKinds(cfg.packageName, cfg.extraIndexUrl, env.install);
      var install := Install(InstallCommand(cfg.packageName, cfg.extraIndexUrl));
      assert install in InstallPhase(cfg, env) && KindOf(install) == Installing;
    }
  }

  /**
   * The phases of a pass happen in order: the dry run before any
   * termination, every capture before every termination, every
   * termination before the install, and the install before every relaunch.
   */
  lemma CycleOrdered(cfg: Config, env: Env)
    ensures Precedes(CycleSpec(cfg, env).trace, Checking, Terminating)
    ensures Precedes(CycleSpec(cfg, env).trace, Capturing, Terminating)
    ensures Precedes(CycleSpec(cfg, env).trace, Terminating, Installing)
    ensures Precedes(CycleSpec(cfg, env).trace, Installing, Relaunching)
    ensures !Absent(CycleSpec(cfg, env).trace, Terminating) ==> CheckUpToDate(env.check) == Some(false)
    ensures !Absent(CycleSpec(cfg, env).trace, Relaunching) ==> !Absent(CycleSpec(cfg, env).trace, Installing)
  {
    var m := CycleParts(cfg, env);
    PhaseFacts(cfg, env, m);
    ShutdownReached(cfg, env);
    RestartReached(cfg, env);
    PhaseKinds(cfg, env);
    PhasesOrdered(CheckTrace(cfg, env.check), ShutdownPhase(cfg, env), InstallPhase(cfg, env), RestartPhase(cfg, env), Log(m));
  }

  /**
   * Only processes that were captured are terminated, in capture order, and
   * termination starts only once every matching process was captured.
   */
  lemma TerminatedWereCaptured(cfg: Config, env: Env)
    ensures IsPrefix(TerminatedPids(CycleSpec(cfg, env).trace), CapturedPids(CycleSpec(cfg, env).trace))
    ensures !Absent(CycleSpec(cfg, env).trace, Terminating) ==>
      CapturedPids(CycleSpec(cfg, env).trace) == Pids(Selected(cfg.processName, cfg.processCmdline, env.table))
  {
    var m := CycleParts(cfg, env);
    PhaseFacts(cfg, env, m);
    ShutdownPhaseTerminates(cfg, env);
  }

  /**
   * pip's install starts only after a dry run that found an update and,
   * when restarting, only once every matching process was terminated.
   */
  lemma InstallAfterShutdown(cfg: Config, env: Env)
    ensures !Absent(CycleSpec(cfg, env).trace, Installing) ==> CheckUpToDate(env.check) == Some(false)
    ensures !Absent(CycleSpec(cfg, env).trace, Installing) && RestartEnabled(cfg) ==>
      TerminatedPids(CycleSpec(cfg, env).trace) == Pids(Selected(cfg.processName, cfg.processCmdline, env.table))
  {
    var m := CycleParts(cfg, env);
    PhaseFacts(cfg, env, m);
    ShutdownPhaseTerminates(cfg, env);
  }

  /**
   * The relaunched command lines are the captured ones, in order: a prefix
   * of them in general, and all of them when the pass ends with a restart.
   */
  lemma RelaunchesAreCaptured(cfg: Config, env: Env)
    ensures IsPrefix(RelaunchedOf(CycleSpec(cfg, env).trace), CapturedOf(CycleSpec(cfg, env).trace))
    ensures CycleSpec(cfg, env).outcome == Updated(true) ==>
      RelaunchedOf(CycleSpec(cfg, env).trace) == CapturedOf(CycleSpec(cfg, env).trace)
  {
    var m := CycleParts(cfg, env);
    PhaseFacts(cfg, env, m);
    RestartPhaseRelaunches(cfg, env);
  }

  /**
   * Without restarts (the flag is off or the process name is empty) a pass
   * only logs, checks and installs, and never reports a restart.
   */
  lemma DisabledCycle(cfg: Config, env: Env)
    requires !cfg.restart || cfg.processName == ""
    ensures Only(CycleSpec(cfg, env).trace, {Logging, Checking, Installing})
    ensures CycleSpec(cfg, env).outcome != Updated(true)
  {
    var m := CycleParts(cfg, env);
    PhaseKinds(cfg, env);
  }

  /**
   * When pip cannot be started the pass fails without relaunching anything:
   * processes already terminated stay down until a later pass.
   */
  lemma InstallNotStartedStrands(cfg: Config, env: Env)
    requires env.install.InstallNotStarted?
    ensures Absent(CycleSpec(cfg, env).trace, Installing) && Absent(CycleSpec(cfg, env).trace, Relaunching)
    ensures !CycleSpec(cfg, env).outcome.Updated?
    ensures CheckUpToDate(env.check) == Some(false) && Preparation(cfg, env).Completed? ==>
      CycleSpec(cfg, env).outcome == Failed(InstallError)
      && TerminatedPids(CycleSpec(cfg, env).trace)
         == (if RestartEnabled(cfg) then Pids(Selected(cfg.processName, cfg.processCmdline, env.table)) else [])
  {
    var m := CycleParts(cfg, env);
    PhaseFacts(cfg, env, m);
    assert Only(InstallPhase(cfg, env), {Logging});
    ShutdownPhaseTerminates(cfg, env);
  }

  /**
   * An exception skips the rest of the pass: after a failed dry run only
   * its log line follows, a failed capture ends the pass before any
   * termination, a failed capture or close ends it before the install and
   * so before any relaunch, a failed close leaves every later process
   * running, and a failed relaunch leaves every later snapshot unstarted.
   */
  lemma FailureSkipsRest(cfg: Config, env: Env)
    ensures CycleSpec(cfg, env).outcome == Failed(CheckError) ==>
      CycleSpec(cfg, env).trace == CheckTrace(cfg, env.check) + [Log(Unhandled(CheckError))]
    ensures CycleSpec(cfg, env).outcome.Failed? && CycleSpec(cfg, env).outcome.failure.CaptureError? ==>
      Absent(CycleSpec(cfg, env).trace, Terminating)
    ensures (CycleSpec(cfg, env).outcome.Failed?
             && (CycleSpec(cfg, env).outcome.failure.CaptureError? || CycleSpec(cfg, env).outcome.failure.CloseError?)) ==>
      Absent(CycleSpec(cfg, env).trace, Installing) && Absent(CycleSpec(cfg, env).trace, Relaunching)
    ensures CycleSpec(cfg, env).outcome.Failed? && CycleSpec(cfg, env).outcome.failure.CloseError? ==>
      var n := |TerminatedPids(CycleSpec(cfg, env).trace)|;
      n < |Pids(Selected(cfg.processName, cfg.processCmdline, env.table))|
      && Pids(Selected(cfg.processName, cfg.processCmdline, env.table))[n] == CycleSpec(cfg, env).outcome.failure.pid
    ensures CycleSpec(cfg, env).outcome.Failed? && CycleSpec(cfg, env).outcome.failure.RelaunchError? ==>
      var n := |RelaunchedOf(CycleSpec(cfg, env).trace)|;
      n < |CapturedOf(CycleSpec(cfg, env).trace)|
      && CapturedOf(CycleSpec(cfg, env).trace)[n] == CycleSpec(cfg, env).outcome.failure.snapshot
  {
    var m := CycleParts(cfg, env);
    PhaseFacts(cfg, env, m);
    FailureOrigin(cfg, env);
    var outcome := CycleSpec(cfg, env).outcome;
    if outcome.Failed? && outcome.failure.CaptureError? {
      PreparationFailure(cfg, env);
    } else if outcome.Failed? && outcome.failure.CloseError? {
      PreparationCloseAbort(cfg, env);
    } else if outcome.Failed? && outcome.failure.RelaunchError? {
      RestartPhaseAbort(cfg, env);
    }
  }

  /**
   * The last log line of a pass says how it ended: "Complete." exactly when
   * it updated, "Already up to date." exactly when nothing was pending, and
   * the caught exception exactly when it failed.
   */
  lemma PassEnding(cfg: Config, env: Env)
    ensures |CycleSpec(cfg, env).trace| > 0
    ensures var t := CycleSpec(cfg, env).trace;
      (CycleSpec(cfg, env).outcome.Updated? <==> t[|t| - 1] == Log(Complete))
      && (CycleSpec(cfg, env).outcome == UpToDate <==> t[|t| - 1] == Log(AlreadyUpToDate))
      && (CycleSpec(cfg, env).outcome.Failed? <==> t[|t| - 1].Log? && t[|t| - 1].message.Unhandled?)
      && (CycleSpec(cfg, env).outcome.Failed? ==> t[|t| - 1] == Log(Unhandled(CycleSpec(cfg, env).outcome.failure)))
  {
    var m := CycleParts(cfg, env);
  }

  /**
   * A pass is up to date exactly when the dry run exited cleanly without
   * announcing an install; it then logs, runs the dry run, logs, and does
   * nothing else.
   */
  lemma UpToDateCycle(cfg: Config, env: Env)
    ensures CycleSpec(cfg, env).outcome == UpToDate <==>
      env.check.CheckExited? && env.check.status == 0 && IsUpToDate(env.check.stdout)
    ensures CycleSpec(cfg, env).outcome == UpToDate ==>
      CycleSpec(cfg, env).trace
      == [Log(CheckingForUpdates), Check(CheckCommand(cfg.packageName, cfg.extraIndexUrl)), Log(AlreadyUpToDate)]
  {
  }

  /** pip's exit status plays no part: only whether it started does. */
  lemma InstallStatusIgnored(cfg: Config, env: Env, status: int)
    requires env.install.InstallExited?
    ensures CycleSpec(cfg, env.(install := env.install.(status := status))) == CycleSpec(cfg, env)
  {
  }

  /** A pass never waits: the waits all belong to the loop around it. */
  lemma CycleNeverWaits(cfg: Config, env: Env)
    ensures Absent(CycleSpec(cfg, env).trace, Waiting)
    ensures WaitsOf(CycleSpec(cfg, env).trace) == []
  {
    var m := CycleParts(cfg, env);
    PhaseFacts(cfg, env, m);
  }
}
