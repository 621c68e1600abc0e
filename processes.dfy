/**
 * Selection of the running processes to restart around an install
 * (`get_running_processes`). The operating system's process table is an
 * input: one record per process, in enumeration order, whose optional
 * fields are `None` where psutil raises `psutil.Error` for that query.
 */
module Processes {
  import opened Wrappers
  import opened Text

  /** What a relaunch needs: the captured command line and working directory. */
  datatype Snapshot = Snapshot(argv: seq<string>, cwd: string)

  /**
   * One entry of the process table, with what each psutil query on its
   * handle answers at the point of the update cycle where it is made.
   */
  datatype ProcessInfo = ProcessInfo(
    pid: nat,
    name: Option<string>,           // `name()` while selecting
    cmdline: Option<seq<string>>,   // `cmdline()` while selecting
    snapshot: Option<Snapshot>,     // `(cmdline(), cwd())` when captured before closing
    closeName: Option<string>,      // `name()` when the close is logged
    terminates: bool)               // `terminate()` returns without raising

  /** The command-line marker of the updater's own process. */
  const RestartMarker := "--restart"

  /** A process whose space-joined command line holds the marker is the updater itself. */
  predicate SelfExcluded(argv: seq<string>)
  {
    Contains(JoinSpace(argv), RestartMarker)
  }

  /**
   * The process is kept: both queries succeed, it is not the updater
   * itself, and both filters are substrings (an empty filter matches all).
   */
  predicate Selects(name: string, cmdline: string, p: ProcessInfo)
  {
    p.cmdline.Some? && !SelfExcluded(p.cmdline.value)
    && p.name.Some? && Contains(p.name.value, name)
    && Contains(JoinSpace(p.cmdline.value), cmdline)
  }

  /** The selected processes of `table`, in enumeration order. */
  function Selected(name: string, cmdline: string, table: seq<ProcessInfo>): (r: seq<ProcessInfo>)
    ensures |r| <= |table|
    ensures forall p :: p in r ==> p in table
    decreases |table|
  {
    if table == [] then []
    else
      var last := table[|table| - 1];
      Selected(name, cmdline, table[..|table| - 1]) + (if Selects(name, cmdline, last) then [last] else [])
  }

  /** The pids of a sequence of processes, in order. */
  function Pids(ps: seq<ProcessInfo>): (r: seq<nat>)
    ensures |r| == |ps| && forall k :: 0 <= k < |ps| ==> r[k] == ps[k].pid
  {
    if ps == [] then [] else Pids(ps[..|ps| - 1]) + [ps[|ps| - 1].pid]
  }

  /** `get_running_processes`: an append loop over the enumeration. */
  method GetRunningProcesses(name: string, cmdline: string, table: seq<ProcessInfo>)
    returns (processes: seq<ProcessInfo>)
    ensures processes == Selected(name, cmdline, table)
  {
    processes := [];
    for i := 0 to |table|
      invariant processes == Selected(name, cmdline, table[..i])
    {
      assert table[..i + 1][..i] == table[..i];
      var p := table[i];
      if p.cmdline.None? {
        continue;  // psutil.Error from cmdline(): skipped
      }
      var joined := JoinSpace(p.cmdline.value);
      if Contains(joined, RestartMarker) {
        continue;  // the updater itself
      }
      if p.name.None? {
        continue;  // psutil.Error from name(): skipped
      }
      if Contains(p.name.value, name) && Contains(joined, cmdline) {
        processes := processes + [p];
      }
    }
    assert table[..|table|] == table;
  }

  /**
   * Selection keeps enumeration order: selecting from two runs of the
   * table one after the other is selecting from each in turn.
   */
  lemma {:induction false} SelectedConcat(name: string, cmdline: string, a: seq<ProcessInfo>, b: seq<ProcessInfo>)
    ensures Selected(name, cmdline, a + b) == Selected(name, cmdline, a) + Selected(name, cmdline, b)
    decreases |b|
  {
    if b == [] {
      assert a + b == a;
    } else {
      var n := |b| - 1;
      assert (a + b)[..|a + b| - 1] == a + b[..n];
      SelectedConcat(name, cmdline, a, b[..n]);
    }
  }

  /** Every selected process is selectable. */
  lemma {:induction false} SelectedSound(name: string, cmdline: string, table: seq<ProcessInfo>)
    ensures forall p :: p in Selected(name, cmdline, table) ==> Selects(name, cmdline, p)
    decreases |table|
  {
    if table != [] {
      SelectedSound(name, cmdline, table[..|table| - 1]);
    }
  }

  /** Every selectable process of the table is selected. */
  lemma {:induction false} SelectedComplete(name: string, cmdline: string, table: seq<ProcessInfo>, p: ProcessInfo)
    requires p in table && Selects(name, cmdline, p)
    ensures p in Selected(name, cmdline, table)
    decreases |table|
  {
    var front := table[..|table| - 1];
    if p != table[|table| - 1] {
      assert table == front + [table[|table| - 1]];
      SelectedComplete(name, cmdline, front, p);
    }
  }

  /** The updater never selects a process whose command line holds the marker, whatever the filters. */
  lemma NeverSelectsSelf(name: string, cmdline: string, table: seq<ProcessInfo>)
    ensures forall p :: p in Selected(name, cmdline, table) ==>
      p.cmdline.Some? && !Contains(JoinSpace(p.cmdline.value), RestartMarker)
  {
    SelectedSound(name, cmdline, table);
  }

  /** In particular a process with any argument containing the marker is never selected. */
  lemma MarkedArgumentExcluded(name: string, cmdline: string, table: seq<ProcessInfo>, p: ProcessInfo, k: nat)
    requires p.cmdline.Some? && k < |p.cmdline.value| && Contains(p.cmdline.value[k], RestartMarker)
    ensures p !in Selected(name, cmdline, table)
  {
    SelectedSound(name, cmdline, table);
    WordInJoin(p.cmdline.value, k);
    ContainsTransitive(JoinSpace(p.cmdline.value), p.cmdline.value[k], RestartMarker);
  }

  /**
   * With both filters empty every inspectable process other than the
   * updater itself is selected.
   */
  lemma EmptyFiltersSelectAll(table: seq<ProcessInfo>, p: ProcessInfo)
    requires p in table && p.name.Some? && p.cmdline.Some? && !SelfExcluded(p.cmdline.value)
    ensures p in Selected("", "", table)
  {
    ContainsEmpty(p.name.value);
    ContainsEmpty(JoinSpace(p.cmdline.value));
    SelectedComplete("", "", table, p);
  }
}
