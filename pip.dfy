/**
 * The two pip invocations (`get_is_up_to_date`, `install_updates`): the
 * command lines they build, the up-to-date verdict read from the dry run's
 * standard output, and the filter that decides which lines of the
 * install's output reach the log. The subprocesses themselves are inputs.
 */
module Pip {
  import opened Wrappers
  import opened Text
  import opened Actions

  /** `pip install --upgrade <pkg>`, plus `--extra-index-url <url>` when `url` is non-empty. */
  function InstallCommand(pkg: string, url: string): (cmd: seq<string>)
    ensures |cmd| == if url == "" then 4 else 6
    ensures cmd[..4] == ["pip", "install", "--upgrade", pkg]
    ensures url != "" ==> cmd[4..] == ["--extra-index-url", url]
  {
    ["pip", "install", "--upgrade", pkg] + (if url != "" then ["--extra-index-url", url] else [])
  }

  /** The dry run: the install command line followed by `--dry-run`. */
  function CheckCommand(pkg: string, url: string): (cmd: seq<string>)
    ensures cmd == InstallCommand(pkg, url) + ["--dry-run"]
    ensures cmd[|cmd| - 1] == "--dry-run"
  {
    var cmd := ["pip", "install", "--upgrade", pkg];
    var cmd := if url != "" then cmd + ["--extra-index-url", url] else cmd;
    cmd + ["--dry-run"]
  }

  /** How the dry-run subprocess ended: it did not start, or it exited with its decoded stdout. */
  datatype CheckRun = CheckNotStarted | CheckExited(status: int, stdout: string)

  /** How the install subprocess ended: it did not start, or it exited with its output lines. */
  datatype InstallRun =
    | InstallNotStarted
    | InstallExited(status: int, stdout: seq<string>, stderr: seq<string>)

  const WouldInstall := "Would install"

  /** pip's dry run names what it would install; without that phrase nothing is pending. */
  predicate IsUpToDate(stdout: string)
  {
    !Contains(stdout, WouldInstall)
  }

  /**
   * `get_is_up_to_date`: no verdict (the call raises) when the dry run did
   * not start or exited non-zero; otherwise up to date exactly when
   * "Would install" occurs nowhere in its output.
   */
  function CheckUpToDate(run: CheckRun): (r: Option<bool>)
    ensures r.None? <==> run.CheckNotStarted? || run.status != 0
    ensures r.Some? ==> (r.value <==> forall i :: !OccursAt(run.stdout, WouldInstall, i))
  {
    match run
    case CheckNotStarted => None
    case CheckExited(status, stdout) => if status != 0 then None else Some(IsUpToDate(stdout))
  }

  /** Output that reports something to install, anywhere in it, means an update is pending. */
  lemma PendingInstallDetected(before: string, after: string)
    ensures !IsUpToDate(before + WouldInstall + after)
  {
    assert OccursAt(WouldInstall, WouldInstall, 0);
    ContainsInConcat(before, WouldInstall, WouldInstall);
    ContainsInConcat(before + WouldInstall, after, WouldInstall);
  }

  const Notice := "[notice]"

  /** An output line reaches the log: non-blank, and not a pip notice when notices are hidden. */
  predicate Shows(line: string, hideNotices: bool)
  {
    Strip(line) != "" && !(hideNotices && Contains(Strip(line), Notice))
  }

  /**
   * The stripped lines of one output stream that reach the log, in order
   * (notices are hidden on standard error only).
   */
  function Shown(lines: seq<string>, hideNotices: bool): (r: seq<string>)
    ensures |r| <= |lines|
    decreases |lines|
  {
    if lines == [] then []
    else
      var last := lines[|lines| - 1];
      Shown(lines[..|lines| - 1], hideNotices) + (if Shows(last, hideNotices) then [Strip(last)] else [])
  }

  /**
   * Every logged line is a stripped, non-blank line of the stream, and no
   * notice is logged where notices are hidden.
   */
  lemma {:induction false} ShownSound(lines: seq<string>, hideNotices: bool, x: string)
    requires x in Shown(lines, hideNotices)
    ensures x != "" && Strip(x) == x && !(hideNotices && Contains(x, Notice))
    ensures exists l :: l in lines && Strip(l) == x
    decreases |lines|
  {
    var front := lines[..|lines| - 1];
    var last := lines[|lines| - 1];
    if x in Shown(front, hideNotices) {
      ShownSound(front, hideNotices, x);
      var l :| l in front && Strip(l) == x;
      assert l in lines;
    } else {
      assert x == Strip(last);
      StripIdempotent(last);
    }
  }

  /** Every line of the stream that shows is logged. */
  lemma {:induction false} ShownComplete(lines: seq<string>, hideNotices: bool, l: string)
    requires l in lines && Shows(l, hideNotices)
    ensures Strip(l) in Shown(lines, hideNotices)
    decreases |lines|
  {
    var front := lines[..|lines| - 1];
    if l != lines[|lines| - 1] {
      assert l in front;
      ShownComplete(front, hideNotices, l);
    }
  }

  /** All that the install logs of pip's output: standard output first, then standard error. */
  function InstallLog(stdout: seq<string>, stderr: seq<string>): seq<string>
  {
    Shown(stdout, false) + Shown(stderr, true)
  }

  /** Log actions for the given lines, one each, in order. */
  function AsLogs(lines: seq<string>): (r: seq<Action>)
    ensures |r| == |lines|
    ensures forall a :: a in r ==> a.Log? && a.message.ToolOutput?
    decreases |lines|
  {
    if lines == [] then [] else AsLogs(lines[..|lines| - 1]) + [Log(ToolOutput(lines[|lines| - 1]))]
  }

  /** Logging two runs of lines one after the other logs their concatenation. */
  lemma {:induction false} AsLogsConcat(a: seq<string>, b: seq<string>)
    ensures AsLogs(a + b) == AsLogs(a) + AsLogs(b)
    decreases |b|
  {
    if b == [] {
      assert a + b == a;
    } else {
      var front := b[..|b| - 1];
      AsLogsConcat(a, front);
      assert (a + b)[..|a + b| - 1] == a + front;
    }
  }

  /** What `install_updates` does, as a trace; pip's exit status plays no part. */
  function InstallTrace(pkg: string, url: string, run: InstallRun): seq<Action>
  {
    [Log(InstallingUpdates)]
    + (if run.InstallNotStarted? then []
       else [Install(InstallCommand(pkg, url))] + AsLogs(InstallLog(run.stdout, run.stderr)))
  }

  /**
   * `install_updates`: start pip, log each shown line of its standard
   * output and then of its standard error. `started` is false when
   * starting pip raised.
   */
  method InstallUpdates(pkg: string, url: string, run: InstallRun) returns (started: bool, trace: seq<Action>)
    ensures started <==> run.InstallExited?
    ensures trace == InstallTrace(pkg, url, run)
  {
    trace := [Log(InstallingUpdates)];
    if run.InstallNotStarted? {
      return false, trace;
    }
    started := true;
    var fromStdout := LogStream(run.stdout, false);
    var fromStderr := LogStream(run.stderr, true);
    AsLogsConcat(Shown(run.stdout, false), Shown(run.stderr, true));
    trace := trace + ([Install(InstallCommand(pkg, url))] + (fromStdout + fromStderr));
  }

  /** The loop over one of pip's output streams: each line that shows is logged, stripped. */
  method LogStream(lines: seq<string>, hideNotices: bool) returns (logged: seq<Action>)
    ensures logged == AsLogs(Shown(lines, hideNotices))
  {
    logged := [];
    for i := 0 to |lines|
      invariant logged == AsLogs(Shown(lines[..i], hideNotices))
    {
      LogStep(lines, i, hideNotices);
      var line := Strip(lines[i]);
      if line != "" && !(hideNotices && Contains(line, Notice)) {
        logged := logged + [Log(ToolOutput(line))];
      }
    }
    assert lines[..|lines|] == lines;
  }

  /** One more line of the stream adds its log entry when it is shown. */
  lemma LogStep(lines: seq<string>, i: nat, hideNotices: bool)
    requires i < |lines|
    ensures AsLogs(Shown(lines[..i + 1], hideNotices))
         == AsLogs(Shown(lines[..i], hideNotices))
            + (if Shows(lines[i], hideNotices) then [Log(ToolOutput(Strip(lines[i])))] else [])
  {
    assert lines[..i + 1][..i] == lines[..i];
    var shown := if Shows(lines[i], hideNotices) then [Strip(lines[i])] else [];
    AsLogsConcat(Shown(lines[..i], hideNotices), shown);
    assert AsLogs(shown) == if Shows(lines[i], hideNotices) then [Log(ToolOutput(Strip(lines[i])))] else [] by {
      assert shown == [] || shown[..0] == [];
    }
  }

  /** The install's trace holds only log lines and the install itself. */
  lemma InstallTraceKinds(pkg: string, url: string, run: InstallRun)
    ensures forall a :: a in InstallTrace(pkg, url, run) ==> KindOf(a) == Logging || KindOf(a) == Installing
    ensures run.InstallExited? <==> Install(InstallCommand(pkg, url)) in InstallTrace(pkg, url, run)
  {
    if run.InstallExited? {
      assert InstallTrace(pkg, url, run)[1] == Install(InstallCommand(pkg, url));
    }
  }
}
