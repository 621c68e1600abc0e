/**
 * `UpdaterThread.run`: announce and wait out the first delay, then pass
 * after pass check, update and restart, each followed by an announced wait
 * of one interval. The loop never ends; the model runs it for as many
 * passes as there are answers from the outside world in `envs`.
 */
module Updater {
  import opened Actions
  import opened Cycle
  import opened CycleProperties

  /** The announced wait that precedes the first pass and follows every pass. */
  function Pause(seconds: int): seq<Action>
  {
    [Log(NextUpdateIn(seconds)), Wait(seconds)]
  }

  /** An announced wait waits once, for the announced time. */
  lemma PauseWaits(seconds: int)
    ensures WaitsOf(Pause(seconds)) == [seconds]
  {
    var announce, wait := Log(NextUpdateIn(seconds)), Wait(seconds);
    assert [announce][..0] == [] && [wait][..0] == [];
    ExtractConcat([announce], [wait], WaitedSeconds);
    assert Pause(seconds) == [announce] + [wait];
  }

  /** The first `|envs|` passes of the loop, `envs[i]` answering pass `i`. */
  function RunSpec(cfg: Config, envs: seq<Env>): seq<Action>
    decreases |envs|
  {
    if envs == [] then Pause(cfg.delayFirst)
    else RunSpec(cfg, envs[..|envs| - 1]) + CycleSpec(cfg, envs[|envs| - 1]).trace + Pause(cfg.interval)
  }

  /** `UpdaterThread.run` in `pkg_updater/updater.py`, for `|envs|` passes of its loop. */
  method Run(cfg: Config, envs: seq<Env>) returns (trace: seq<Action>)
    ensures trace == RunSpec(cfg, envs)
  {
    trace := [Log(NextUpdateIn(cfg.delayFirst)), Wait(cfg.delayFirst)];
    for i := 0 to |envs|
      invariant trace == RunSpec(cfg, envs[..i])
    {
      assert envs[..i + 1][..i] == envs[..i];
      var outcome, passTrace := RunCycle(cfg, envs[i]);
      trace := trace + passTrace;
      trace := trace + [Log(NextUpdateIn(cfg.interval)), Wait(cfg.interval)];
    }
    assert envs[..|envs|] == envs;
  }

  /**
   * The loop waits the first delay once and then one interval after every
   * pass, whatever each pass's outcome: no failure ends the loop.
   */
  lemma {:induction false} RunWaits(cfg: Config, envs: seq<Env>)
    ensures WaitsOf(RunSpec(cfg, envs)) == [cfg.delayFirst] + seq(|envs|, _ => cfg.interval)
    decreases |envs|
  {
    if envs == [] {
      PauseWaits(cfg.delayFirst);
    } else {
      var front := envs[..|envs| - 1];
      var pass := CycleSpec(cfg, envs[|envs| - 1]).trace;
      RunWaits(cfg, front);
      CycleNeverWaits(cfg, envs[|envs| - 1]);
      ExtractConcat(RunSpec(cfg, front), pass, WaitedSeconds);
      ExtractConcat(RunSpec(cfg, front) + pass, Pause(cfg.interval), WaitedSeconds);
      PauseWaits(cfg.interval);
      assert seq(|envs|, _ => cfg.interval) == seq(|front|, _ => cfg.interval) + [cfg.interval];
    }
  }
}
