/**
 * What an update cycle does, as a trace of actions, and the vocabulary for
 * stating ordering facts about traces.
 *
 * An action is recorded when the operation took effect: a subprocess that
 * was started, a snapshot that was read, a termination that was requested
 * without error, a relaunch that was started. An operation that raised is
 * recorded by the `Unhandled` log line naming the failure.
 */
module Actions {
  import opened Wrappers
  import opened Processes

  /** The exception that ended a cycle early, by the step that raised it. */
  datatype Failure =
    | CheckError                       // `check_output` did not start, or pip exited non-zero
    | CaptureError(pid: nat)           // `cmdline()` or `cwd()` raised while capturing
    | CloseError(pid: nat)             // `name()` or `terminate()` raised while closing
    | InstallError                     // the install subprocess did not start
    | RelaunchError(snapshot: Snapshot) // `Popen` raised while relaunching

  /** The log lines of the updater, by their content. */
  datatype Message =
    | NextUpdateIn(seconds: int)
    | CheckingForUpdates
    | AlreadyUpToDate
    | ShuttingDown
    | ClosingProcess(name: string)
    | InstallingUpdates
    | ToolOutput(line: string)
    | Restarting
    | Complete
    | Unhandled(failure: Failure)     // logged with its traceback at error level

  datatype Action =
    | Log(message: Message)
    | Wait(seconds: int)               // ends after `seconds`, or earlier when triggered
    | Check(command: seq<string>)      // dry-run pip subprocess
    | Query(name: string, cmdline: string) // process-table enumeration
    | Captured(pid: nat, snapshot: Snapshot)
    | Terminate(pid: nat)
    | Install(command: seq<string>)    // pip install subprocess
    | Relaunch(snapshot: Snapshot)     // detached `Popen` of a captured process

  datatype Kind = Logging | Waiting | Checking | Querying | Capturing | Terminating | Installing | Relaunching

  function KindOf(a: Action): Kind
  {
    match a
    case Log(_) => Logging
    case Wait(_) => Waiting
    case Check(_) => Checking
    case Query(_, _) => Querying
    case Captured(_, _) => Capturing
    case Terminate(_) => Terminating
    case Install(_) => Installing
    case Relaunch(_) => Relaunching
  }

  /** No action of kind `k` occurs in `t`. */
  ghost predicate Absent(t: seq<Action>, k: Kind)
  {
    forall a :: a in t ==> KindOf(a) != k
  }

  /** Every action of `t` has one of the kinds `ks`. */
  ghost predicate Only(t: seq<Action>, ks: set<Kind>)
  {
    forall a :: a in t ==> KindOf(a) in ks
  }

  /** When the parts around a middle part have no `k` action, the whole has one exactly when the middle has. */
  lemma AbsentAround(a: seq<Action>, m: seq<Action>, b: seq<Action>, k: Kind)
    requires Absent(a, k) && Absent(b, k)
    ensures Absent(a + m + b, k) <==> Absent(m, k)
  {
  }

  /** A trace without terminations terminates no process. */
  lemma NoTerminations(t: seq<Action>)
    requires Absent(t, Terminating)
    ensures TerminatedPids(t) == []
  {
    ExtractNothing(t, TerminatedPid);
  }

  /** A projection of a trace made of five parts, of which only the second or the fourth projects to anything. */
  lemma ExtractParts<X>(a: seq<Action>, b: seq<Action>, c: seq<Action>, d: seq<Action>, e: seq<Action>, pick: Action -> Option<X>)
    requires Extract(a, pick) == [] && Extract(c, pick) == [] && Extract(e, pick) == []
    ensures Extract(d, pick) == [] ==> Extract(a + b + c + d + e, pick) == Extract(b, pick)
    ensures Extract(b, pick) == [] ==> Extract(a + b + c + d + e, pick) == Extract(d, pick)
  {
    ExtractConcat(a, b, pick);
    ExtractConcat(a + b, c, pick);
    ExtractConcat(a + b + c, d, pick);
    ExtractConcat(a + b + c + d, e, pick);
  }

  /** A projection of a middle part, when the parts around it project to nothing. */
  lemma ExtractAround<X>(a: seq<Action>, m: seq<Action>, b: seq<Action>, pick: Action -> Option<X>)
    requires Extract(a, pick) == [] && Extract(b, pick) == []
    ensures Extract(a + m + b, pick) == Extract(m, pick)
  {
    ExtractConcat(a, m, pick);
    ExtractConcat(a + m, b, pick);
  }

  /** Every action of kind `k1` in `t` comes before every action of kind `k2`. */
  ghost predicate Precedes(t: seq<Action>, k1: Kind, k2: Kind)
  {
    forall i, j :: 0 <= i < |t| && 0 <= j < |t| && KindOf(t[i]) == k1 && KindOf(t[j]) == k2 ==> i < j
  }

  /** A trace whose `k1` actions all lie in a part before all its `k2` actions keeps them in order. */
  lemma PrecedesAcross(p: seq<Action>, s: seq<Action>, k1: Kind, k2: Kind)
    requires Absent(p, k2) && Absent(s, k1)
    ensures Precedes(p + s, k1, k2)
  {
    var t := p + s;
    forall i | |p| <= i < |t| ensures KindOf(t[i]) != k1 {
      assert t[i] == s[i - |p|] && s[i - |p|] in s;
    }
    forall j | 0 <= j < |p| ensures KindOf(t[j]) != k2 {
      assert t[j] == p[j] && p[j] in p;
    }
  }

  /** Two ordered parts stay ordered when the second has no `k1` or the first has no `k2`. */
  lemma PrecedesConcat(p: seq<Action>, s: seq<Action>, k1: Kind, k2: Kind)
    requires Precedes(p, k1, k2) && Precedes(s, k1, k2)
    requires Absent(s, k1) || Absent(p, k2)
    ensures Precedes(p + s, k1, k2)
  {
    var t := p + s;
    forall i | |p| <= i < |t| ensures t[i] == s[i - |p|] && t[i] in s {
    }
    forall j | 0 <= j < |p| ensures t[j] == p[j] && t[j] in p {
    }
    forall i, j | 0 <= i < |t| && 0 <= j < |t| && KindOf(t[i]) == k1 && KindOf(t[j]) == k2
      ensures i < j
    {
      if |p| <= i && |p| <= j {
        assert KindOf(s[i - |p|]) == k1 && KindOf(s[j - |p|]) == k2;
      } else if i < |p| && j < |p| {
        assert KindOf(p[i]) == k1 && KindOf(p[j]) == k2;
      }
    }
  }

  /** Whether `a` prefixes `b`. */
  predicate IsPrefix<X(==)>(a: seq<X>, b: seq<X>)
  {
    |a| <= |b| && a == b[..|a|]
  }

  /** The values `pick` extracts from the actions of `t`, in trace order. */
  function Extract<X>(t: seq<Action>, pick: Action -> Option<X>): (r: seq<X>)
    ensures |r| <= |t|
    decreases |t|
  {
    if t == [] then []
    else
      var last := pick(t[|t| - 1]);
      Extract(t[..|t| - 1], pick) + (if last.Some? then [last.value] else [])
  }

  lemma {:induction false} ExtractConcat<X>(a: seq<Action>, b: seq<Action>, pick: Action -> Option<X>)
    ensures Extract(a + b, pick) == Extract(a, pick) + Extract(b, pick)
    decreases |b|
  {
    if b != [] {
      var n := |b| - 1;
      assert (a + b)[..|a + b| - 1] == a + b[..n];
      ExtractConcat(a, b[..n], pick);
    } else {
      assert a + b == a;
    }
  }

  lemma {:induction false} ExtractNothing<X>(t: seq<Action>, pick: Action -> Option<X>)
    requires forall a :: a in t ==> pick(a).None?
    ensures Extract(t, pick) == []
    decreases |t|
  {
    if t != [] {
      assert t[|t| - 1] in t;
      ExtractNothing(t[..|t| - 1], pick);
    }
  }

  function CapturedSnapshot(a: Action): Option<Snapshot>
  {
    if a.Captured? then Some(a.snapshot) else None
  }

  function CapturedPid(a: Action): Option<nat>
  {
    if a.Captured? then Some(a.pid) else None
  }

  function TerminatedPid(a: Action): Option<nat>
  {
    if a.Terminate? then Some(a.pid) else None
  }

  function RelaunchedSnapshot(a: Action): Option<Snapshot>
  {
    if a.Relaunch? then Some(a.snapshot) else None
  }

  function WaitedSeconds(a: Action): Option<int>
  {
    if a.Wait? then Some(a.seconds) else None
  }

  /** The snapshots a trace captured, in capture order. */
  function CapturedOf(t: seq<Action>): seq<Snapshot> { Extract(t, CapturedSnapshot) }

  /** The pids a trace captured, in capture order. */
  function CapturedPids(t: seq<Action>): seq<nat> { Extract(t, CapturedPid) }

  /** The pids a trace terminated, in order. */
  function TerminatedPids(t: seq<Action>): seq<nat> { Extract(t, TerminatedPid) }

  /** The snapshots a trace relaunched, in order. */
  function RelaunchedOf(t: seq<Action>): seq<Snapshot> { Extract(t, RelaunchedSnapshot) }

  /** The durations a trace waited, in order. */
  function WaitsOf(t: seq<Action>): seq<int> { Extract(t, WaitedSeconds) }

  /** A trace without actions of a kind has nothing to project for that kind. */
  lemma ProjectionsOfOnly(t: seq<Action>, ks: set<Kind>)
    requires Only(t, ks)
    ensures Capturing !in ks ==> CapturedOf(t) == [] && CapturedPids(t) == []
    ensures Terminating !in ks ==> TerminatedPids(t) == []
    ensures Relaunching !in ks ==> RelaunchedOf(t) == []
    ensures Waiting !in ks ==> WaitsOf(t) == []
  {
    if Capturing !in ks {
      ExtractNothing(t, CapturedSnapshot);
      ExtractNothing(t, CapturedPid);
    }
    if Terminating !in ks {
      ExtractNothing(t, TerminatedPid);
    }
    if Relaunching !in ks {
      ExtractNothing(t, RelaunchedSnapshot);
    }
    if Waiting !in ks {
      ExtractNothing(t, WaitedSeconds);
    }
  }

  /** The result of one iteration of a loop whose body may raise. */
  datatype StepResult<P> =
    | Proceed(products: seq<P>, emitted: seq<Action>)
    | Raise(failure: Failure, emitted: seq<Action>)

  /** The result of a loop whose body may raise: it ran to the end, or the first raise left it. */
  datatype Sweep<P> =
    | Completed(products: seq<P>, trace: seq<Action>)
    | Aborted(failure: Failure, trace: seq<Action>)

  /**
   * A loop over `xs` without a `try` inside it: the body's effects
   * accumulate until the first iteration that raises, which ends the loop.
   */
  function RunSweep<T, P>(xs: seq<T>, step: T -> StepResult<P>): (r: Sweep<P>)
    ensures r.Completed? <==> forall x :: x in xs ==> step(x).Proceed?
    decreases |xs|
  {
    if xs == [] then Completed([], [])
    else
      var front := xs[..|xs| - 1];
      var last := xs[|xs| - 1];
      assert forall x :: x in xs ==> x in front || x == last;
      match RunSweep(front, step)
      case Aborted(f, t) => Aborted(f, t)
      case Completed(ps, t) =>
        match step(last)
        case Proceed(p, e) => Completed(ps + p, t + e)
        case Raise(f, e) => Aborted(f, t + e)
  }

  /** One more iteration of the loop, when the ones before it did not raise. */
  lemma SweepStep<T, P>(xs: seq<T>, i: nat, step: T -> StepResult<P>)
    requires i < |xs| && RunSweep(xs[..i], step).Completed?
    ensures RunSweep(xs[..i + 1], step)
         == match step(xs[i])
            case Proceed(p, e) => Completed(RunSweep(xs[..i], step).products + p, RunSweep(xs[..i], step).trace + e)
            case Raise(f, e) => Aborted(f, RunSweep(xs[..i], step).trace + e)
  {
    assert xs[..i + 1][..i] == xs[..i];
  }

  /** Once the loop has raised, later elements change nothing. */
  lemma {:induction false} SweepAbortSticky<T, P>(xs: seq<T>, n: nat, step: T -> StepResult<P>)
    requires n <= |xs| && RunSweep(xs[..n], step).Aborted?
    ensures RunSweep(xs, step) == RunSweep(xs[..n], step)
    decreases |xs| - n
  {
    if n < |xs| {
      var front := xs[..|xs| - 1];
      assert front[..n] == xs[..n];
      SweepAbortSticky(front, n, step);
    } else {
      assert xs[..n] == xs;
    }
  }

  /**
   * A loop each of whose iterations emits one value of interest, `f` of its
   * element, when it proceeds and none when it raises, yields those values
   * for a prefix of its elements, and for all of them when it completes.
   */
  lemma {:induction false} SweepExtract<T, P, X>(xs: seq<T>, step: T -> StepResult<P>, pick: Action -> Option<X>, f: T -> X)
    requires forall x :: x in xs ==> Extract(step(x).emitted, pick) == (if step(x).Proceed? then [f(x)] else [])
    ensures |Extract(RunSweep(xs, step).trace, pick)| <= |xs|
    ensures forall k :: 0 <= k < |Extract(RunSweep(xs, step).trace, pick)| ==>
      Extract(RunSweep(xs, step).trace, pick)[k] == f(xs[k])
    ensures RunSweep(xs, step).Completed? ==> |Extract(RunSweep(xs, step).trace, pick)| == |xs|
    decreases |xs|
  {
    if xs == [] {
      assert RunSweep(xs, step).trace == [];
    } else {
      var front := xs[..|xs| - 1];
      var last := xs[|xs| - 1];
      assert forall x :: x in xs ==> x in front || x == last;
      assert forall x :: x in front ==> x in xs;
      SweepExtract(front, step, pick, f);
      var r0 := RunSweep(front, step);
      var e0 := Extract(r0.trace, pick);
      var e := Extract(RunSweep(xs, step).trace, pick);
      if r0.Completed? && step(last).Proceed? {
        assert Extract(step(last).emitted, pick) == [f(last)];
        assert RunSweep(xs, step).trace == r0.trace + step(last).emitted;
        ExtractConcat(r0.trace, step(last).emitted, pick);
        assert e == e0 + [f(last)];
        forall k | 0 <= k < |e| ensures e[k] == f(xs[k]) {
          if k < |e0| {
            assert e[k] == e0[k] && front[k] == xs[k];
          } else {
            assert k == |front| && e[k] == f(last);
          }
        }
      } else {
        if r0.Completed? {
          assert Extract(step(last).emitted, pick) == [];
          assert RunSweep(xs, step).trace == r0.trace + step(last).emitted;
          ExtractConcat(r0.trace, step(last).emitted, pick);
        }
        assert e == e0;
        forall k | 0 <= k < |e| ensures e[k] == f(xs[k]) {
          assert front[k] == xs[k];
        }
      }
    }
  }

  /**
   * Under the same conditions, a loop that raised stopped at the element
   * right after those it yielded values for, and that element's iteration
   * raised the loop's failure.
   */
  lemma {:induction false} SweepExtractAbort<T, P, X>(xs: seq<T>, step: T -> StepResult<P>, pick: Action -> Option<X>, f: T -> X)
    requires forall x :: x in xs ==> Extract(step(x).emitted, pick) == (if step(x).Proceed? then [f(x)] else [])
    ensures RunSweep(xs, step).Aborted? ==>
      var n := |Extract(RunSweep(xs, step).trace, pick)|;
      n < |xs| && step(xs[n]).Raise? && step(xs[n]).failure == RunSweep(xs, step).failure
    decreases |xs|
  {
    if xs != [] {
      var front := xs[..|xs| - 1];
      var last := xs[|xs| - 1];
      assert forall x :: x in front ==> x in xs;
      var r0 := RunSweep(front, step);
      if r0.Aborted? {
        SweepExtractAbort(front, step, pick, f);
        var n := |Extract(r0.trace, pick)|;
        assert xs[n] == front[n];
      } else if step(last).Raise? {
        SweepExtract(front, step, pick, f);
        assert last in xs;
        ExtractConcat(r0.trace, step(last).emitted, pick);
      }
    }
  }

  /** A loop whose body never emits a `k` action emits none. */
  lemma {:induction false} SweepAbsent<T, P>(xs: seq<T>, step: T -> StepResult<P>, k: Kind)
    requires forall x :: x in xs ==> Absent(step(x).emitted, k)
    ensures Absent(RunSweep(xs, step).trace, k)
    decreases |xs|
  {
    if xs != [] {
      var front := xs[..|xs| - 1];
      assert xs[|xs| - 1] in xs;
      SweepAbsent(front, step, k);
    }
  }

  /** A loop whose body emits only actions of the kinds `ks` emits only those. */
  lemma {:induction false} SweepOnly<T, P>(xs: seq<T>, step: T -> StepResult<P>, ks: set<Kind>)
    requires forall x :: x in xs ==> Only(step(x).emitted, ks)
    ensures Only(RunSweep(xs, step).trace, ks)
    decreases |xs|
  {
    if xs != [] {
      var front := xs[..|xs| - 1];
      assert xs[|xs| - 1] in xs;
      SweepOnly(front, step, ks);
    }
  }

  /** A loop that raised was left by the raise of one of its iterations. */
  lemma {:induction false} SweepFailure<T, P>(xs: seq<T>, step: T -> StepResult<P>)
    requires RunSweep(xs, step).Aborted?
    ensures exists x :: x in xs && step(x).Raise? && step(x).failure == RunSweep(xs, step).failure
    decreases |xs|
  {
    var front := xs[..|xs| - 1];
    var last := xs[|xs| - 1];
    assert last in xs;
    if RunSweep(front, step).Aborted? {
      SweepFailure(front, step);
      var x :| x in front && step(x).Raise? && step(x).failure == RunSweep(front, step).failure;
      assert x in xs;
    }
  }
}
