# pkg-updater: a Dafny model of the update loop

pkg-updater keeps one pip package current. A background thread waits a
first delay, then forever: asks pip in a dry run whether
`pip install --upgrade <package>` would install anything; if so, it
optionally shuts down the running processes that use the package
(remembering each one's command line and working directory), runs the real
install while streaming pip's output into the log, starts the closed
processes again, and logs "Complete.". Any exception in a pass is logged and
the loop carries on after waiting one interval.

This project models `pkg_updater/updater.py`, the only file with that
behaviour:

- `text.dfy` — Python's `in` on strings, `str.strip()` and `" ".join`.
- `processes.dfy` — `get_running_processes`: the process table is an input
  (one record per process, `None` where a psutil query raises).
- `pip.dfy` — the two pip command lines, the dry run's up-to-date verdict
  and `install_updates`, whose output filter is a loop (`LogStream`).
- `actions.dfy` — the trace alphabet: what a pass logs and does, in order
  (logs, waits, pip runs, process queries, captures, terminations,
  relaunches), projections of a trace, and `RunSweep`, a loop over a list
  that stops at the first raise.
- `cycle.dfy` — one pass of the `while True` loop: `CycleSpec` is its
  meaning, `RunCycle` the imperative body proved equal to it.
- `cycle_properties.dfy` — what a pass guarantees: ordering of captures,
  terminations, the install and relaunches; which processes are terminated
  and relaunched; how a pass ends.
- `updater.dfy` — `UpdaterThread.run`, for as many passes as the outside
  world answers.

Every outside effect is an input: the process table, what each psutil call
on a process answers, how the dry run and the install end, and which
relaunches fail to start. A pass's result is its outcome (up to date,
updated, or failed with the caught exception) and its trace.

The model follows the code as written:

- a capture (`cmdline()`/`cwd()`), a `name()` or `terminate()` call, or a
  relaunch `Popen` that raises aborts the whole pass, not only the step for
  that process;
- the install's exit status is ignored: `install_updates` never checks it,
  so only a pip that cannot be started makes the pass fail;
- restarts are gated on the restart flag and a non-empty process name; the
  command-line filter alone does not enable them;
- the dry-run phrase searched for is "Would install", with its space.

## Model

| member | source | states |
|---|---|---|
| Processes.GetRunningProcesses | pkg_updater/updater.py:14-27 | the loop returns exactly the selection `Selected`: in enumeration order, skipping processes whose `cmdline()` or `name()` raises and the updater itself |
| Processes.SelectedConcat | pkg_updater/updater.py:17-24 | selection keeps enumeration order: selecting from two runs of the table is selecting from each in turn |
| Processes.SelectedSound | pkg_updater/updater.py:19-24 | every selected process has a readable command line without the `--restart` marker, a readable name, and both filters as substrings |
| Processes.SelectedComplete | pkg_updater/updater.py:17-26 | every process of the table meeting those conditions is selected |
| Processes.NeverSelectsSelf | pkg_updater/updater.py:19-22 | whatever the filters, no process whose joined command line holds `--restart` is selected |
| Processes.MarkedArgumentExcluded | pkg_updater/updater.py:19-22 | a process with any single argument containing `--restart` is never selected |
| Processes.EmptyFiltersSelectAll | pkg_updater/updater.py:23 | with both filters empty every inspectable process other than the updater is selected |
| Text.WordInJoin | pkg_updater/updater.py:19 | every argument occurs in the space-joined command line |
| Text.StripInside | pkg_updater/updater.py:49 | a stripped line is a slice of the line |
| Text.StripEmpty | pkg_updater/updater.py:49-50 | a line strips to empty exactly when it is all whitespace |
| Text.StripIdempotent | pkg_updater/updater.py:49 | stripping twice is stripping once |
| Pip.InstallCommand | pkg_updater/updater.py:41-43 | the install command is `pip install --upgrade <pkg>`, followed by `--extra-index-url <url>` exactly when the URL is non-empty |
| Pip.CheckCommand | pkg_updater/updater.py:31-34 | the dry-run command is the install command followed by `--dry-run` |
| Pip.CheckUpToDate | pkg_updater/updater.py:36-37 | no verdict (the call raises) exactly when pip did not start or exited non-zero; otherwise up to date exactly when "Would install" occurs nowhere in its output |
| Pip.PendingInstallDetected | pkg_updater/updater.py:37 | output that contains "Would install" anywhere is never judged up to date |
| Pip.ShownSound | pkg_updater/updater.py:47-56 | every logged output line is a stripped, non-empty line of the stream, and no `[notice]` line of standard error is logged |
| Pip.ShownComplete | pkg_updater/updater.py:47-56 | every line of a stream that is non-blank (and, on standard error, not a notice) is logged, stripped |
| Pip.LogStream | pkg_updater/updater.py:48-51 | the loop over one stream logs exactly the shown lines, stripped, in order |
| Pip.InstallUpdates | pkg_updater/updater.py:40-56 | reports whether pip started; the trace logs "Installing updates...", starts the install command, then logs standard output's shown lines before standard error's |
| Pip.InstallTraceKinds | pkg_updater/updater.py:45-56 | installing only logs and runs pip, and runs pip exactly when it could be started |
| Cycle.CaptureProcesses | pkg_updater/updater.py:83-85 | the comprehension reads every selected process's snapshot in order, or stops at the first that raises |
| Cycle.TerminateProcesses | pkg_updater/updater.py:86-88 | each process is logged by name and terminated, in order, until a call raises |
| Cycle.CloseProcesses | pkg_updater/updater.py:77-88 | logs the shutdown, selects the processes, captures them all, then closes them; ends with the snapshots or the failure |
| Cycle.RestartProcesses | pkg_updater/updater.py:94-103 | logs the restart and relaunches each snapshot in order until a launch raises |
| Cycle.RunCycle | pkg_updater/updater.py:70-106 | the pass's outcome and trace are those of `CycleSpec` |
| CycleProperties.CaptureSweepFacts | pkg_updater/updater.py:83-85 | capturing only records captures; when none raised, the snapshots returned are the captured ones, for every selected process in order |
| CycleProperties.CloseSweepOrder | pkg_updater/updater.py:86-88 | the terminated pids are a prefix of the processes' pids in order, all of them when no call raised |
| CycleProperties.RelaunchSweepOrder | pkg_updater/updater.py:96-103 | the relaunched snapshots are a prefix of the captured ones in order, all of them when no launch raised |
| CycleProperties.CloseSweepAbort | pkg_updater/updater.py:86-88 | a close loop that raised stopped at the first process it did not terminate, and that process's `name()` or `terminate()` raised the failure |
| CycleProperties.RelaunchSweepAbort | pkg_updater/updater.py:96-103 | a relaunch loop that raised stopped at the first snapshot it did not start, which `Popen` could not start and which names the failure |
| CycleProperties.PreparationCaptures | pkg_updater/updater.py:80-85 | the snapshots carried to the restart are exactly the captured ones |
| CycleProperties.PreparationCapturesAll | pkg_updater/updater.py:83-88 | a termination happens only after every selected process was captured |
| CycleProperties.PreparationTerminates | pkg_updater/updater.py:80-88 | the terminated processes are a prefix of the selected ones, all of them when nothing raised |
| CycleProperties.PreparationFailure | pkg_updater/updater.py:83-88 | the shutdown ends early only on a capture or close that raised, and a failed capture ends it before any termination |
| CycleProperties.RestartFailure | pkg_updater/updater.py:96-103 | the restart ends early only on a relaunch that raised |
| CycleProperties.PreparationCloseAbort | pkg_updater/updater.py:86-88 | a shutdown that failed closing a process terminated exactly the selected processes before it |
| CycleProperties.RestartAbort | pkg_updater/updater.py:94-103 | a restart that failed relaunched exactly the snapshots before the one whose `Popen` raised |
| CycleProperties.RestartFacts | pkg_updater/updater.py:94-103 | restarting only logs and relaunches, does nothing when restarts are disabled, and relaunches a prefix of the snapshots, all on success |
| CycleProperties.CycleOrdered | pkg_updater/updater.py:71-103 | within a pass, every capture precedes every termination, every termination precedes the install, and the install precedes every relaunch; any termination implies a dry run that found an update (and so follows it), and any relaunch implies the install ran (and so follows it) |
| CycleProperties.TerminatedWereCaptured | pkg_updater/updater.py:83-88 | only captured processes are terminated, in capture order, and only once every selected process was captured |
| CycleProperties.InstallAfterShutdown | pkg_updater/updater.py:71-93 | the install runs only after a dry run that found an update and, with restarts, only once every selected process was terminated |
| CycleProperties.RelaunchesAreCaptured | pkg_updater/updater.py:94-103 | relaunched command lines are a prefix of the captured snapshots, all of them when the pass updated with restarts |
| CycleProperties.DisabledCycle | pkg_updater/updater.py:76-94 | without the restart flag or a process name a pass only logs, checks and installs, and never reports a restart |
| CycleProperties.InstallNotStartedStrands | pkg_updater/updater.py:91-106 | when pip cannot start the pass fails with nothing installed or relaunched, while every selected process stays terminated |
| CycleProperties.FailureSkipsRest | pkg_updater/updater.py:70-106 | an exception skips the rest of the pass: a failed dry run is followed only by its logged exception; a failed capture leaves no termination; a failed capture or close leaves no install and no relaunch; a failed close terminated exactly the selected processes before the one that raised; a failed relaunch started exactly the captured snapshots before the one that raised |
| CycleProperties.PassEnding | pkg_updater/updater.py:74-106 | a pass's last log line is "Complete." exactly when it updated, "Already up to date." exactly when nothing was pending, and the caught exception exactly when it failed |
| CycleProperties.UpToDateCycle | pkg_updater/updater.py:71-74 | a pass is up to date exactly when the dry run exits cleanly without "Would install", and then it only logs, checks and logs |
| CycleProperties.InstallStatusIgnored | pkg_updater/updater.py:46 | changing pip's exit status changes nothing in the pass |
| CycleProperties.CycleNeverWaits | pkg_updater/updater.py:70-106 | a pass itself never waits |
| Updater.PauseWaits | pkg_updater/updater.py:107-109 | an announced wait waits once, for the announced time |
| Updater.Run | pkg_updater/updater.py:65-109 | the loop's trace is the first delay, then each pass followed by its interval wait (`RunSpec`) |
| Updater.RunWaits | pkg_updater/updater.py:66-109 | the loop waits the first delay once and then one interval after every pass, whatever each pass's outcome |

## Left out

- The Qt window, tray icon, argument parsing and log formatting (`pkg_updater/app.py`, `logger.py`, `handlers.py`) are not part of this model; log lines are kept as message values, not rendered text, and the logged traceback is reduced to the failure that caused it.
- The condition variable that lets the window wake the loop early: `Wait(d)` stands for a wait of at most `d` seconds; no timing or concurrency is modelled.
- `UpdaterThread` is not a class: its fields are set once and never updated, so the loop is a method over the configuration.
- The endless `while True` runs for `|envs|` passes, one per answer of the outside world.
- Decoding errors of pip's output, pipe deadlocks, and the wait for pip at the end of the `with` block are not modelled; pip's output is given as lines per stream.
- `Popen` options for relaunch (`DEVNULL`, `start_new_session`) are not modelled; a relaunch either starts or raises. Whether it raises depends only on the snapshot (its command line, and whether it is in the given set of unlaunchable snapshots), so two processes with the same command line and working directory either both start or both fail.
- When each psutil query on a process fails is fixed by fields of its record (one answer per query), not by a changing process table; which exception class is raised is reduced to the failing step.
