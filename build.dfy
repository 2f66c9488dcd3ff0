/**
 * The fail-fast target build: for every target of the selected group, in
 * order, remove the stale egg-info directory (best effort), make sure the
 * `wheel` package is installed for the target's interpreter, then build the
 * requested sdist and wheel. The first command that fails ends the run.
 */
module Build {
  import opened Wrappers
  import opened ExitCodes
  import opened Config
  import opened Commands

  /** The commands a stage issued, and the exit code it ended the run with, if any. */
  datatype Stage = Stage(trace: seq<Command>, failure: Option<ExitCode>)

  function EggInfo(name: string): string {
    name + ".egg-info"
  }

  function SdistCommand(python: string): Command {
    SetupPy(python, "sdist")
  }

  function WheelCommand(python: string): Command {
    SetupPy(python, "bdist_wheel")
  }

  /** The kinds of command the build loop issues. */
  predicate IsBuildCommand(c: Command) {
    c.RemoveTree? || (c.PipInstall? && c.package == "wheel") ||
    (c.SetupPy? && (c.verb == "sdist" || c.verb == "bdist_wheel"))
  }

  /** The exit code a failing build command ends the run with. */
  function FailureCode(c: Command): (e: ExitCode)
    requires c.PipInstall? || c.SetupPy?
    ensures c.PipInstall? ==> e == PipFailure
    ensures c.SetupPy? && c.verb == "sdist" ==> e == BuildFailedSourceDist
    ensures c.SetupPy? && c.verb != "sdist" ==> e == BuildFailedWheel
  {
    if c.PipInstall? then PipFailure
    else if c.verb == "sdist" then BuildFailedSourceDist
    else BuildFailedWheel
  }

  /** The k-th command of `tr`, issued at `pos + k`, did not stop the run. */
  predicate Passed(tr: seq<Command>, oracle: Oracle, pos: nat, k: nat)
    requires k < |tr|
  {
    BestEffort(tr[k]) || oracle(pos + k) == 0
  }

  /**
   * The fail-fast discipline of a stage whose commands were issued from
   * position `pos`: it fails exactly when some command that is not a
   * best-effort cleanup returned non-zero, that command is the last one
   * issued, and the exit code is the one belonging to that command.
   */
  ghost predicate FailFast(s: Stage, oracle: Oracle, pos: nat) {
    (forall k :: 0 <= k < |s.trace| ==> IsBuildCommand(s.trace[k])) &&
    (s.failure.None? ==> forall k :: 0 <= k < |s.trace| ==> Passed(s.trace, oracle, pos, k)) &&
    (s.failure.Some? ==>
       |s.trace| > 0 &&
       !Passed(s.trace, oracle, pos, |s.trace| - 1) &&
       s.failure.value == FailureCode(s.trace[|s.trace| - 1]) &&
       forall k :: 0 <= k < |s.trace| - 1 ==> Passed(s.trace, oracle, pos, k))
  }

  /** A stage that ran to completion followed by another is fail-fast as a whole. */
  lemma FailFastAppend(done: Stage, s: Stage, oracle: Oracle, pos: nat)
    requires done.failure.None? && FailFast(done, oracle, pos)
    requires FailFast(s, oracle, pos + |done.trace|)
    ensures FailFast(Stage(done.trace + s.trace, s.failure), oracle, pos)
  {
    var tr := done.trace + s.trace;
    var n := |done.trace|;
    forall k | 0 <= k < |tr|
      ensures IsBuildCommand(tr[k])
      ensures Passed(tr, oracle, pos, k) ==
              if k < n then Passed(done.trace, oracle, pos, k) else Passed(s.trace, oracle, pos + n, k - n)
    {
      if k >= n {
        assert tr[k] == s.trace[k - n];
      }
    }
  }

  /** One iteration of the build loop, its first command issued at position `pos`. */
  function BuildTarget(name: string, t: TargetSpec, oracle: Oracle, pos: nat): (r: Stage)
    ensures r.failure == Some(PipFailure) <==> oracle(pos + 1) != 0
  {
    var cleanup := RemoveTree(EggInfo(name));
    var pip := PipInstall(t.python, "wheel");
    var sdist := SdistCommand(t.python);
    var wheel := WheelCommand(t.python);
    if oracle(pos + 1) != 0 then Stage([cleanup, pip], Some(PipFailure))
    else if WantsSdist(t) then
      if oracle(pos + 2) != 0 then Stage([cleanup, pip, sdist], Some(BuildFailedSourceDist))
      else if !WantsWheel(t) then Stage([cleanup, pip, sdist], None)
      else Stage([cleanup, pip, sdist, wheel], if oracle(pos + 3) != 0 then Some(BuildFailedWheel) else None)
    else if !WantsWheel(t) then Stage([cleanup, pip], None)
    else Stage([cleanup, pip, wheel], if oracle(pos + 2) != 0 then Some(BuildFailedWheel) else None)
  }

  /** One target is fail-fast: see FailFast. */
  lemma BuildTargetFailFast(name: string, t: TargetSpec, oracle: Oracle, pos: nat)
    ensures FailFast(BuildTarget(name, t, oracle, pos), oracle, pos)
  {
  }

  /**
   * The order of work within one target: the egg-info cleanup, then
   * `pip install wheel`, then the sdist (only when asked for), then the wheel
   * (only when asked for), all with the target's own interpreter. A target
   * that did not fail issued exactly the builds it asked for.
   */
  lemma BuildTargetOrder(name: string, t: TargetSpec, oracle: Oracle, pos: nat)
    ensures var r := BuildTarget(name, t, oracle, pos);
      && 2 <= |r.trace| <= 4
      && r.trace[0] == RemoveTree(EggInfo(name))
      && r.trace[1] == PipInstall(t.python, "wheel")
      && (forall k :: 2 <= k < |r.trace| ==>
            r.trace[k] == SdistCommand(t.python) || r.trace[k] == WheelCommand(t.python))
      && (!WantsSdist(t) && !WantsWheel(t) ==> |r.trace| == 2)
      && (forall k :: 0 <= k < |r.trace| && r.trace[k] == SdistCommand(t.python) ==> WantsSdist(t) && k == 2)
      && (forall k :: 0 <= k < |r.trace| && r.trace[k] == WheelCommand(t.python) ==> WantsWheel(t) && k == |r.trace| - 1)
      && (r.failure.None? ==>
            (SdistCommand(t.python) in r.trace <==> WantsSdist(t)) &&
            (WheelCommand(t.python) in r.trace <==> WantsWheel(t)))
  {
  }

  /**
   * The build loop after its first `n` iterations over `targets`, its first
   * command issued at `pos`. Defined on the last of those iterations so that
   * it follows the loop's own order of work.
   */
  function BuildAll(name: string, targets: seq<TargetSpec>, n: nat, oracle: Oracle, pos: nat): (r: Stage)
    requires n <= |targets|
    ensures n == 0 ==> r == Stage([], None)
    decreases n
  {
    if n == 0 then Stage([], None)
    else
      var done := BuildAll(name, targets, n - 1, oracle, pos);
      if done.failure.Some? then done
      else
        var s := BuildTarget(name, targets[n - 1], oracle, pos + |done.trace|);
        Stage(done.trace + s.trace, s.failure)
  }

  /** The whole build loop over `targets`. */
  function BuildLoop(name: string, targets: seq<TargetSpec>, oracle: Oracle, pos: nat): Stage {
    BuildAll(name, targets, |targets|, oracle, pos)
  }

  /** One more iteration of the build loop: the next target's commands follow the earlier ones. */
  lemma BuildAllNext(name: string, targets: seq<TargetSpec>, i: nat, oracle: Oracle, pos: nat, next: Stage)
    requires i < |targets|
    requires BuildAll(name, targets, i, oracle, pos).failure.None?
    requires next == BuildTarget(name, targets[i], oracle, pos + |BuildAll(name, targets, i, oracle, pos).trace|)
    ensures BuildAll(name, targets, i + 1, oracle, pos) ==
            Stage(BuildAll(name, targets, i, oracle, pos).trace + next.trace, next.failure)
  {
  }

  /** The build loop is fail-fast: see FailFast. */
  lemma {:induction false} BuildAllFailFast(name: string, targets: seq<TargetSpec>, n: nat, oracle: Oracle, pos: nat)
    requires n <= |targets|
    ensures FailFast(BuildAll(name, targets, n, oracle, pos), oracle, pos)
    decreases n
  {
    if n > 0 {
      var done := BuildAll(name, targets, n - 1, oracle, pos);
      BuildAllFailFast(name, targets, n - 1, oracle, pos);
      if done.failure.None? {
        var s := BuildTarget(name, targets[n - 1], oracle, pos + |done.trace|);
        BuildTargetFailFast(name, targets[n - 1], oracle, pos + |done.trace|);
        FailFastAppend(done, s, oracle, pos);
        BuildAllNext(name, targets, n - 1, oracle, pos, s);
      }
    }
  }

  /**
   * The commands `tr` include everything target `t` is built with:
   * `pip install wheel`, and its sdist and wheel when they are asked for.
   */
  predicate Built(t: TargetSpec, tr: seq<Command>) {
    && PipInstall(t.python, "wheel") in tr
    && (WantsSdist(t) ==> SdistCommand(t.python) in tr)
    && (WantsWheel(t) ==> WheelCommand(t.python) in tr)
  }

  /** Commands issued stay issued when more follow or precede them. */
  lemma BuiltInAppend(t: TargetSpec, a: seq<Command>, b: seq<Command>)
    requires Built(t, a) || Built(t, b)
    ensures Built(t, a + b)
  {
    forall c | c in a || c in b ensures c in a + b {
      if c in a {
        var k :| 0 <= k < |a| && a[k] == c;
        assert (a + b)[k] == c;
      } else {
        var k :| 0 <= k < |b| && b[k] == c;
        assert (a + b)[|a| + k] == c;
      }
    }
  }

  /** The first `n` targets are all built in `tr`. */
  predicate AllBuilt(targets: seq<TargetSpec>, n: nat, tr: seq<Command>)
    requires n <= |targets|
  {
    forall i :: 0 <= i < n ==> Built(targets[i], tr)
  }

  /** The first `n - 1` targets built in `done` and target `n - 1` built in `s` are all built in `done + s`. */
  lemma AllBuiltAppend(targets: seq<TargetSpec>, n: nat, done: seq<Command>, s: seq<Command>)
    requires 0 < n <= |targets|
    requires AllBuilt(targets, n - 1, done)
    requires Built(targets[n - 1], s)
    ensures AllBuilt(targets, n, done + s)
  {
    forall i | 0 <= i < n ensures Built(targets[i], done + s) {
      BuiltInAppend(targets[i], done, s);
    }
  }

  /** A failure in the first `n - 1` iterations is still the loop's failure after `n`. */
  lemma BuildAllFailureSticks(name: string, targets: seq<TargetSpec>, n: nat, oracle: Oracle, pos: nat)
    requires 0 < n <= |targets|
    ensures BuildAll(name, targets, n - 1, oracle, pos).failure.Some? ==> BuildAll(name, targets, n, oracle, pos).failure.Some?
  {
  }

  /** A target that did not fail was built completely. */
  lemma BuildTargetBuilt(name: string, t: TargetSpec, oracle: Oracle, pos: nat)
    requires BuildTarget(name, t, oracle, pos).failure.None?
    ensures Built(t, BuildTarget(name, t, oracle, pos).trace)
  {
  }

  /**
   * No partial release: when the first `n` iterations went through, every
   * one of those targets got `pip install wheel` and each artifact it asked for.
   */
  lemma {:induction false} BuildAllComplete(name: string, targets: seq<TargetSpec>, n: nat, oracle: Oracle, pos: nat)
    requires n <= |targets|
    requires BuildAll(name, targets, n, oracle, pos).failure.None?
    ensures AllBuilt(targets, n, BuildAll(name, targets, n, oracle, pos).trace)
    decreases n
  {
    if n > 0 {
      var done := BuildAll(name, targets, n - 1, oracle, pos);
      BuildAllFailureSticks(name, targets, n, oracle, pos);
      var s := BuildTarget(name, targets[n - 1], oracle, pos + |done.trace|);
      assert BuildAll(name, targets, n, oracle, pos).trace == done.trace + s.trace by {
        BuildAllNext(name, targets, n - 1, oracle, pos, s);
      }
      assert Built(targets[n - 1], s.trace) by {
        BuildTargetBuilt(name, targets[n - 1], oracle, pos + |done.trace|);
      }
      BuildAllComplete(name, targets, n - 1, oracle, pos);
      AllBuiltAppend(targets, n, done.trace, s.trace);
    }
  }

  /** The interpreter `py_exe` holds after the loop ran over `targets` without failing. */
  function LastPython(targets: seq<TargetSpec>): (py: Option<string>)
    ensures py.None? <==> targets == []
  {
    if targets == [] then None else Some(targets[|targets| - 1].python)
  }

  /**
   * First failure halts everything: once the first `i` iterations have
   * failed, no later target issues a command.
   */
  lemma {:induction false} BuildAllHalts(name: string, targets: seq<TargetSpec>, oracle: Oracle, pos: nat, i: nat, j: nat)
    requires i <= j <= |targets|
    requires BuildAll(name, targets, i, oracle, pos).failure.Some?
    ensures BuildAll(name, targets, j, oracle, pos) == BuildAll(name, targets, i, oracle, pos)
    decreases j
  {
    if i < j {
      BuildAllHalts(name, targets, oracle, pos, i, j - 1);
    }
  }

  /** Targets are processed in list order: the commands of earlier iterations come first. */
  lemma {:induction false} BuildAllPrefix(name: string, targets: seq<TargetSpec>, oracle: Oracle, pos: nat, i: nat, j: nat)
    requires i <= j <= |targets|
    ensures BuildAll(name, targets, i, oracle, pos).trace <= BuildAll(name, targets, j, oracle, pos).trace
    decreases j
  {
    if i < j {
      BuildAllPrefix(name, targets, oracle, pos, i, j - 1);
    }
  }

  /** Whether a cleanup succeeded never changes what one target does. */
  lemma BuildTargetIgnoresCleanup(name: string, t: TargetSpec, o1: Oracle, o2: Oracle, pos: nat)
    requires AgreeBeyondCleanup(BuildTarget(name, t, o1, pos).trace, o1, o2, pos)
    ensures BuildTarget(name, t, o2, pos) == BuildTarget(name, t, o1, pos)
  {
    var tr := BuildTarget(name, t, o1, pos).trace;
    BuildTargetOrder(name, t, o1, pos);
    assert o1(pos + 1) == o2(pos + 1) by { assert !BestEffort(tr[1]); }
    if o1(pos + 1) == 0 && WantsSdist(t) {
      assert tr[2] == SdistCommand(t.python);
      assert o1(pos + 2) == o2(pos + 2);
    }
    if o1(pos + 1) == 0 && WantsWheel(t) && (!WantsSdist(t) || o1(pos + 2) == 0) {
      var w := if WantsSdist(t) then 3 else 2;
      assert tr[w] == WheelCommand(t.python);
      assert o1(pos + w) == o2(pos + w);
    }
  }

  /** One more iteration of the build loop ignores cleanup failures when the earlier ones did. */
  lemma BuildAllNextIgnoresCleanup(name: string, targets: seq<TargetSpec>, i: nat, o1: Oracle, o2: Oracle, pos: nat)
    requires i < |targets|
    requires BuildAll(name, targets, i, o2, pos) == BuildAll(name, targets, i, o1, pos)
    requires AgreeBeyondCleanup(BuildAll(name, targets, i + 1, o1, pos).trace, o1, o2, pos)
    ensures BuildAll(name, targets, i + 1, o2, pos) == BuildAll(name, targets, i + 1, o1, pos)
  {
    var done := BuildAll(name, targets, i, o1, pos);
    if done.failure.None? {
      var p := pos + |done.trace|;
      var st := BuildTarget(name, targets[i], o1, p);
      BuildAllNext(name, targets, i, o1, pos, st);
      AgreeOnSuffix(done.trace, st.trace, o1, o2, pos);
      BuildTargetIgnoresCleanup(name, targets[i], o1, o2, p);
      BuildAllNext(name, targets, i, o2, pos, st);
    }
  }

  /**
   * Cleanup failure never changes the outcome: two oracles that agree on every
   * command except the best-effort cleanups give the same build.
   */
  lemma {:induction false} BuildAllIgnoresCleanup(name: string, targets: seq<TargetSpec>, n: nat, o1: Oracle, o2: Oracle, pos: nat)
    requires n <= |targets|
    requires AgreeBeyondCleanup(BuildAll(name, targets, n, o1, pos).trace, o1, o2, pos)
    ensures BuildAll(name, targets, n, o2, pos) == BuildAll(name, targets, n, o1, pos)
    decreases n
  {
    if n > 0 {
      BuildAllPrefix(name, targets, o1, pos, n - 1, n);
      AgreeOnPrefix(BuildAll(name, targets, n - 1, o1, pos).trace, BuildAll(name, targets, n, o1, pos).trace, o1, o2, pos);
      BuildAllIgnoresCleanup(name, targets, n - 1, o1, o2, pos);
      BuildAllNextIgnoresCleanup(name, targets, n - 1, o1, o2, pos);
    }
  }

  /**
   * The body of the build loop for one target: cleanup, `pip install wheel`,
   * then the requested builds, stopping at the first non-zero return.
   */
  method BuildOne(name: string, target: TargetSpec, oracle: Oracle, pos: nat)
    returns (cmds: seq<Command>, failure: Option<ExitCode>)
    ensures Stage(cmds, failure) == BuildTarget(name, target, oracle, pos)
  {
    // Best effort: the cleanup's status is never looked at.
    cmds := [RemoveTree(EggInfo(name))];
    failure := None;
    var pyExe := target.python;
    var rc := oracle(pos + |cmds|);
    cmds := cmds + [PipInstall(pyExe, "wheel")];
    if rc != 0 {
      failure := Some(PipFailure);
      return;
    }
    if WantsSdist(target) {
      rc := oracle(pos + |cmds|);
      cmds := cmds + [SdistCommand(pyExe)];
      if rc != 0 {
        failure := Some(BuildFailedSourceDist);
        return;
      }
    }
    if WantsWheel(target) {
      rc := oracle(pos + |cmds|);
      cmds := cmds + [WheelCommand(pyExe)];
      if rc != 0 {
        failure := Some(BuildFailedWheel);
        return;
      }
    }
  }

  /**
   * The build loop as the script runs it: `py_exe` is reassigned on every
   * iteration and the run stops at the first non-zero return.
   */
  method BuildTargets(name: string, targets: seq<TargetSpec>, oracle: Oracle, pos: nat)
    returns (trace: seq<Command>, failure: Option<ExitCode>, pyExe: Option<string>)
    ensures Stage(trace, failure) == BuildLoop(name, targets, oracle, pos)
    ensures failure.None? ==> pyExe == LastPython(targets)
  {
    trace, failure, pyExe := [], None, None;
    for i := 0 to |targets|
      invariant Stage(trace, None) == BuildAll(name, targets, i, oracle, pos)
      invariant pyExe == if i == 0 then None else Some(targets[i - 1].python)
    {
      pyExe := Some(targets[i].python);
      var cmds, fail := BuildOne(name, targets[i], oracle, pos + |trace|);
      BuildAllNext(name, targets, i, oracle, pos, Stage(cmds, fail));
      trace := trace + cmds;
      if fail.Some? {
        failure := fail;
        BuildAllHalts(name, targets, oracle, pos, i + 1, |targets|);
        return;
      }
    }
  }
}
