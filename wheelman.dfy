/**
 * The whole run after the configuration is loaded: remove the leftover
 * `dist` folder (best effort), copy the include files, build the selected
 * targets, then publish. Every external effect is a command whose status
 * comes from the oracle; the k-th command issued gets `oracle(k)`.
 */
module Wheelman {
  import opened Publish
  import opened Wrappers
  import opened ExitCodes
  import opened Config
  import opened Commands
  import opened Prep
  import opened Build

  /** The commands a run issued, in order, and how it ended. */
  datatype Run = Run(trace: seq<Command>, outcome: Outcome)

  const DistCleanup: Command := RemoveTree("dist")

  /** The copy loop; its commands follow the `dist` cleanup. */
  function CopyPhase(cfg: BuildConfig, oracle: Oracle): CopyResult {
    CopyAll(CopyPlan(cfg.name, cfg.includeFiles), oracle, 1)
  }

  /** Where the build loop's first command falls. */
  function BuildStart(cfg: BuildConfig, oracle: Oracle): nat {
    1 + |CopyPhase(cfg, oracle).trace|
  }

  function BuildPhase(cfg: BuildConfig, selector: string, oracle: Oracle): Stage {
    BuildLoop(cfg.name, SelectedTargets(cfg, selector), oracle, BuildStart(cfg, oracle))
  }

  /** Where the publish step's first command falls. */
  function PublishStart(cfg: BuildConfig, selector: string, oracle: Oracle): nat {
    BuildStart(cfg, oracle) + |BuildPhase(cfg, selector, oracle).trace|
  }

  function PublishPhase(cfg: BuildConfig, selector: string, env: Environment, host: Host, oracle: Oracle): Published {
    PublishStage(cfg.pypi, env, host, LastPython(SelectedTargets(cfg, selector)), oracle,
                 PublishStart(cfg, selector, oracle))
  }

  lemma BuildPhaseFailFast(cfg: BuildConfig, selector: string, oracle: Oracle)
    ensures FailFast(BuildPhase(cfg, selector, oracle), oracle, BuildStart(cfg, oracle))
  {
    var targets := SelectedTargets(cfg, selector);
    BuildAllFailFast(cfg.name, targets, |targets|, oracle, BuildStart(cfg, oracle));
  }

  /** The copies and the builds all went through, so the run reaches the publish step. */
  predicate ReachesPublish(cfg: BuildConfig, selector: string, oracle: Oracle) {
    CopyPhase(cfg, oracle).failed.None? && BuildPhase(cfg, selector, oracle).failure.None?
  }

  /** The run handed `dist` to twine. */
  predicate Uploaded(r: Run) {
    exists k :: 0 <= k < |r.trace| && r.trace[k].TwineUpload?
  }

  /** The run, phase after phase; a phase that fails ends it. */
  function WheelmanRun(cfg: BuildConfig, selector: string, env: Environment, host: Host, oracle: Oracle): (r: Run)
    ensures 0 < |r.trace| && r.trace[0] == DistCleanup
  {
    var copies := CopyPhase(cfg, oracle);
    if copies.failed.Some? then
      Run([DistCleanup] + copies.trace, Crash(CopyFailed(copies.failed.value)))
    else
      var build := BuildPhase(cfg, selector, oracle);
      if build.failure.Some? then
        Run([DistCleanup] + copies.trace + build.trace, Exit(build.failure.value))
      else
        var pub := PublishPhase(cfg, selector, env, host, oracle);
        Run([DistCleanup] + copies.trace + build.trace + pub.trace, pub.outcome)
  }

  lemma RunEndsAtCopy(cfg: BuildConfig, selector: string, env: Environment, host: Host, oracle: Oracle)
    requires CopyPhase(cfg, oracle).failed.Some?
    ensures var copies := CopyPhase(cfg, oracle);
            WheelmanRun(cfg, selector, env, host, oracle) ==
            Run([DistCleanup] + copies.trace, Crash(CopyFailed(copies.failed.value)))
  {
  }

  lemma RunEndsAtBuild(cfg: BuildConfig, selector: string, env: Environment, host: Host, oracle: Oracle)
    requires CopyPhase(cfg, oracle).failed.None?
    requires BuildPhase(cfg, selector, oracle).failure.Some?
    ensures var build := BuildPhase(cfg, selector, oracle);
            WheelmanRun(cfg, selector, env, host, oracle) ==
            Run([DistCleanup] + CopyPhase(cfg, oracle).trace + build.trace, Exit(build.failure.value))
  {
  }

  lemma RunEndsAtPublish(cfg: BuildConfig, selector: string, env: Environment, host: Host, oracle: Oracle)
    requires CopyPhase(cfg, oracle).failed.None?
    requires BuildPhase(cfg, selector, oracle).failure.None?
    ensures var pub := PublishPhase(cfg, selector, env, host, oracle);
            WheelmanRun(cfg, selector, env, host, oracle) ==
            Run([DistCleanup] + CopyPhase(cfg, oracle).trace + BuildPhase(cfg, selector, oracle).trace + pub.trace,
                pub.outcome)
  {
  }

  /** The script's top level, statement by statement. */
  method Wheelman(cfg: BuildConfig, selector: string, env: Environment, host: Host, oracle: Oracle)
    returns (trace: seq<Command>, outcome: Outcome)
    ensures Run(trace, outcome) == WheelmanRun(cfg, selector, env, host, oracle)
  {
    // Best effort: the status of removing `dist` is never looked at.
    trace := [DistCleanup];
    var copied, failedCopy := CopyIncludeFiles(cfg.name, cfg.includeFiles, oracle, |trace|);
    assert CopyResult(copied, failedCopy) == CopyPhase(cfg, oracle);
    trace := trace + copied;
    if failedCopy.Some? {
      outcome := Crash(CopyFailed(failedCopy.value));
      RunEndsAtCopy(cfg, selector, env, host, oracle);
      return;
    }
    var targets := SelectedTargets(cfg, selector);
    var built, failure, pyExe := BuildTargets(cfg.name, targets, oracle, |trace|);
    assert Stage(built, failure) == BuildPhase(cfg, selector, oracle);
    trace := trace + built;
    if failure.Some? {
      outcome := Exit(failure.value);
      RunEndsAtBuild(cfg, selector, env, host, oracle);
      return;
    }
    var published;
    published, outcome := RunPublish(cfg.pypi, env, host, pyExe, oracle, |trace|);
    assert Published(published, outcome) == PublishPhase(cfg, selector, env, host, oracle);
    trace := trace + published;
    RunEndsAtPublish(cfg, selector, env, host, oracle);
  }

  /** Nothing before the publish step is an upload. */
  lemma NoUploadBeforePublish(cfg: BuildConfig, selector: string, oracle: Oracle, tr: seq<Command>)
    requires tr == [DistCleanup] + CopyPhase(cfg, oracle).trace ||
             tr == [DistCleanup] + CopyPhase(cfg, oracle).trace + BuildPhase(cfg, selector, oracle).trace
    ensures forall k :: 0 <= k < |tr| ==> !tr[k].TwineUpload?
  {
    var copies := CopyPhase(cfg, oracle).trace;
    var build := BuildPhase(cfg, selector, oracle).trace;
    BuildPhaseFailFast(cfg, selector, oracle);
    forall k | 0 <= k < |tr| ensures !tr[k].TwineUpload? {
      if 0 < k < 1 + |copies| {
        assert tr[k] == copies[k - 1];
      } else if k >= 1 + |copies| {
        assert tr[k] == build[k - 1 - |copies|];
        assert IsBuildCommand(build[k - 1 - |copies|]);
      }
    }
  }

  /**
   * Upload is attempted iff the copies and builds went through, both
   * credentials are present, the tag condition holds, a target URL is
   * configured, a target ran (so `py_exe` is bound) and twine installed.
   */
  lemma UploadIff(cfg: BuildConfig, selector: string, env: Environment, host: Host, oracle: Oracle)
    ensures Uploaded(WheelmanRun(cfg, selector, env, host, oracle)) <==>
              ReachesPublish(cfg, selector, oracle) &&
              Gate(cfg.pypi, env) == Upload &&
              TargetUrl(cfg.pypi) != "" &&
              SelectedTargets(cfg, selector) != [] &&
              oracle(PublishStart(cfg, selector, oracle)) == 0
  {
    var r := WheelmanRun(cfg, selector, env, host, oracle);
    var copies := CopyPhase(cfg, oracle);
    if copies.failed.Some? {
      NoUploadBeforePublish(cfg, selector, oracle, r.trace);
    } else if BuildPhase(cfg, selector, oracle).failure.Some? {
      NoUploadBeforePublish(cfg, selector, oracle, r.trace);
    } else {
      var before := [DistCleanup] + copies.trace + BuildPhase(cfg, selector, oracle).trace;
      var pub := PublishPhase(cfg, selector, env, host, oracle);
      NoUploadBeforePublish(cfg, selector, oracle, before);
      assert r.trace == before + pub.trace;
      if Uploaded(r) {
        var k :| 0 <= k < |r.trace| && r.trace[k].TwineUpload?;
        assert k >= |before|;
        assert pub.trace[k - |before|].TwineUpload?;
      }
      if |pub.trace| == 2 {
        assert r.trace[|before| + 1] == pub.trace[1];
      }
    }
  }

  /**
   * No partial release: a run that uploads built every selected target, each
   * with `pip install wheel` and every sdist and wheel it asked for.
   */
  lemma UploadMeansAllBuilt(cfg: BuildConfig, selector: string, env: Environment, host: Host, oracle: Oracle)
    requires Uploaded(WheelmanRun(cfg, selector, env, host, oracle))
    ensures forall t :: t in SelectedTargets(cfg, selector) ==> Built(t, WheelmanRun(cfg, selector, env, host, oracle).trace)
  {
    UploadIff(cfg, selector, env, host, oracle);
    var targets := SelectedTargets(cfg, selector);
    var build := BuildPhase(cfg, selector, oracle).trace;
    var head := [DistCleanup] + CopyPhase(cfg, oracle).trace;
    var pub := PublishPhase(cfg, selector, env, host, oracle).trace;
    BuildAllComplete(cfg.name, targets, |targets|, oracle, BuildStart(cfg, oracle));
    RunEndsAtPublish(cfg, selector, env, host, oracle);
    forall t | t in targets ensures Built(t, head + build + pub) {
      var i :| 0 <= i < |targets| && targets[i] == t;
      BuiltInAppend(t, head, build);
      BuiltInAppend(t, head + build, pub);
    }
  }

  /** Only a credential-and-tag gate that says Upload lets twine run at all. */
  lemma UploadNeedsCredentials(cfg: BuildConfig, selector: string, env: Environment, host: Host, oracle: Oracle)
    requires Uploaded(WheelmanRun(cfg, selector, env, host, oracle))
    ensures env.twineUsername.Some? && env.twinePassword.Some?
    ensures !OnlyUploadTags(cfg.pypi) || env.repoTag == Some("true")
  {
    UploadIff(cfg, selector, env, host, oracle);
  }

  /**
   * First failure halts everything: once a command of target i fails, the
   * run ends with that command's exit code, and its trace holds nothing of
   * any later target and nothing of the publish step.
   */
  lemma FirstFailureHalts(cfg: BuildConfig, selector: string, env: Environment, host: Host, oracle: Oracle, i: nat)
    requires CopyPhase(cfg, oracle).failed.None?
    requires var targets := SelectedTargets(cfg, selector);
             i < |targets| && BuildAll(cfg.name, targets, i + 1, oracle, BuildStart(cfg, oracle)).failure.Some?
    ensures var failed := BuildAll(cfg.name, SelectedTargets(cfg, selector), i + 1, oracle, BuildStart(cfg, oracle));
            var r := WheelmanRun(cfg, selector, env, host, oracle);
            r.trace == [DistCleanup] + CopyPhase(cfg, oracle).trace + failed.trace &&
            r.outcome == Exit(failed.failure.value) &&
            Code(r.outcome.code) != 0 &&
            !Uploaded(r)
  {
    var targets := SelectedTargets(cfg, selector);
    BuildAllHalts(cfg.name, targets, oracle, BuildStart(cfg, oracle), i + 1, |targets|);
    BuildPhaseFailFast(cfg, selector, oracle);
    NoUploadBeforePublish(cfg, selector, oracle, WheelmanRun(cfg, selector, env, host, oracle).trace);
  }

  /**
   * With the build done, exactly one credential ends the run with exit 51;
   * no credential, or both without the tag condition, skips the upload and
   * ends with exit 0 without issuing a command.
   */
  lemma CredentialOutcomes(cfg: BuildConfig, selector: string, env: Environment, host: Host, oracle: Oracle)
    requires ReachesPublish(cfg, selector, oracle)
    ensures var r := WheelmanRun(cfg, selector, env, host, oracle);
            (r.outcome == Exit(PypiMissingEnvironmentVars) <==>
               env.twineUsername.Some? != env.twinePassword.Some?) &&
            (Gate(cfg.pypi, env) == SkipUpload ==>
               r.outcome == Exit(Success) &&
               r.trace == [DistCleanup] + CopyPhase(cfg, oracle).trace + BuildPhase(cfg, selector, oracle).trace)
  {
    var pub := PublishPhase(cfg, selector, env, host, oracle);
    if Gate(cfg.pypi, env) == SkipUpload {
      assert pub.trace == [];
    }
  }

  /**
   * On the upload branch, a missing or empty `target_url` ends the run with
   * exit 52 before twine is installed.
   */
  lemma MissingTargetUrl(cfg: BuildConfig, selector: string, env: Environment, host: Host, oracle: Oracle)
    requires ReachesPublish(cfg, selector, oracle)
    requires Gate(cfg.pypi, env) == Upload
    requires cfg.pypi.None? || cfg.pypi.value.targetUrl.None? || cfg.pypi.value.targetUrl == Some("")
    ensures var r := WheelmanRun(cfg, selector, env, host, oracle);
            r.outcome == Exit(PypiMissingConfigVars) &&
            r.trace == [DistCleanup] + CopyPhase(cfg, oracle).trace + BuildPhase(cfg, selector, oracle).trace
  {
    var pub := PublishPhase(cfg, selector, env, host, oracle);
    assert pub.trace == [];
  }

  /**
   * A selector that names no target group builds nothing and cannot fail in
   * the build loop; with nothing built, `py_exe` is unbound, so the upload
   * branch (past the URL check) cannot install twine.
   */
  lemma UnknownSelector(cfg: BuildConfig, selector: string, env: Environment, host: Host, oracle: Oracle)
    requires selector !in cfg.targets
    ensures BuildPhase(cfg, selector, oracle) == Stage([], None)
    ensures var r := WheelmanRun(cfg, selector, env, host, oracle);
            r.outcome != Exit(BuildFailedWheel) && r.outcome != Exit(BuildFailedSourceDist) &&
            r.outcome != Exit(PipFailure) && !Uploaded(r)
  {
    UploadIff(cfg, selector, env, host, oracle);
  }

  /** A run that ends with exit 0 got past the copies and the builds. */
  lemma SuccessReachesPublish(cfg: BuildConfig, selector: string, env: Environment, host: Host, oracle: Oracle)
    requires WheelmanRun(cfg, selector, env, host, oracle).outcome == Exit(Success)
    ensures ReachesPublish(cfg, selector, oracle)
  {
    var build := BuildPhase(cfg, selector, oracle);
    BuildPhaseFailFast(cfg, selector, oracle);
  }

  /** The copies and builds of a run that reaches the publish step all passed. */
  lemma PassedBeforePublish(cfg: BuildConfig, selector: string, oracle: Oracle)
    requires ReachesPublish(cfg, selector, oracle)
    ensures AllPassed([DistCleanup] + CopyPhase(cfg, oracle).trace + BuildPhase(cfg, selector, oracle).trace, oracle, 0)
  {
    var copies := CopyPhase(cfg, oracle).trace;
    var build := BuildPhase(cfg, selector, oracle).trace;
    var b := BuildStart(cfg, oracle);
    BuildPhaseFailFast(cfg, selector, oracle);
    assert AllPassed(copies, oracle, 1) by {
      forall k | 0 <= k < |copies| && !BestEffort(copies[k]) ensures oracle(1 + k) == 0 {
        assert AllSucceeded(oracle, 1, |copies|);
        assert 1 <= 1 + k < 1 + |copies|;
      }
    }
    AllPassedAppend([DistCleanup], copies, oracle, 0);
    assert AllPassed(build, oracle, b) by {
      forall k | 0 <= k < |build| && !BestEffort(build[k]) ensures oracle(b + k) == 0 {
        assert Passed(build, oracle, b, k);
      }
    }
    AllPassedAppend([DistCleanup] + copies, build, oracle, 0);
  }

  /**
   * A run that ends with exit 0 had every command succeed except possibly
   * the best-effort cleanups: no failure goes unreported.
   */
  lemma SuccessMeansNoFailure(cfg: BuildConfig, selector: string, env: Environment, host: Host, oracle: Oracle)
    requires WheelmanRun(cfg, selector, env, host, oracle).outcome == Exit(Success)
    ensures AllPassed(WheelmanRun(cfg, selector, env, host, oracle).trace, oracle, 0)
  {
    SuccessReachesPublish(cfg, selector, env, host, oracle);
    PassedBeforePublish(cfg, selector, oracle);
    var head := [DistCleanup] + CopyPhase(cfg, oracle).trace + BuildPhase(cfg, selector, oracle).trace;
    var pub := PublishPhase(cfg, selector, env, host, oracle);
    assert AllPassed(pub.trace, oracle, PublishStart(cfg, selector, oracle));
    AllPassedAppend(head, pub.trace, oracle, 0);
  }

  /** The copies agree under two oracles that agree on the copies' own commands. */
  lemma CopyPhaseAgree(cfg: BuildConfig, o1: Oracle, o2: Oracle)
    requires AgreeBeyondCleanup(CopyPhase(cfg, o1).trace, o1, o2, 1)
    ensures CopyPhase(cfg, o2) == CopyPhase(cfg, o1)
  {
    CopyAllAgree(CopyPlan(cfg.name, cfg.includeFiles), o1, o2, 1);
  }

  /** The commands of the build loop in a run, none when a copy failed. */
  function BuildTrace(cfg: BuildConfig, selector: string, oracle: Oracle): seq<Command> {
    if CopyPhase(cfg, oracle).failed.None? then BuildPhase(cfg, selector, oracle).trace else []
  }

  /** The commands of the publish step in a run, none when it is not reached. */
  function PublishTrace(cfg: BuildConfig, selector: string, env: Environment, host: Host, oracle: Oracle): seq<Command> {
    if ReachesPublish(cfg, selector, oracle) then PublishPhase(cfg, selector, env, host, oracle).trace else []
  }

  /** A run's commands, phase by phase. */
  lemma RunTrace(cfg: BuildConfig, selector: string, env: Environment, host: Host, oracle: Oracle)
    ensures WheelmanRun(cfg, selector, env, host, oracle).trace ==
            [DistCleanup] + CopyPhase(cfg, oracle).trace + BuildTrace(cfg, selector, oracle) +
            PublishTrace(cfg, selector, env, host, oracle)
  {
  }

  /** A run is determined by its phases. */
  lemma RunFromPhases(cfg: BuildConfig, selector: string, env: Environment, host: Host, o1: Oracle, o2: Oracle)
    requires CopyPhase(cfg, o2) == CopyPhase(cfg, o1)
    requires CopyPhase(cfg, o1).failed.None? ==> BuildPhase(cfg, selector, o2) == BuildPhase(cfg, selector, o1)
    requires ReachesPublish(cfg, selector, o1) ==>
               PublishPhase(cfg, selector, env, host, o2) == PublishPhase(cfg, selector, env, host, o1)
    ensures WheelmanRun(cfg, selector, env, host, o2) == WheelmanRun(cfg, selector, env, host, o1)
  {
  }

  /** The build phase ignores cleanup statuses once the copies agree. */
  lemma BuildPhaseAgree(cfg: BuildConfig, selector: string, o1: Oracle, o2: Oracle)
    requires CopyPhase(cfg, o2) == CopyPhase(cfg, o1)
    requires AgreeBeyondCleanup(BuildPhase(cfg, selector, o1).trace, o1, o2, BuildStart(cfg, o1))
    ensures BuildPhase(cfg, selector, o2) == BuildPhase(cfg, selector, o1)
  {
    var targets := SelectedTargets(cfg, selector);
    assert BuildStart(cfg, o2) == BuildStart(cfg, o1);
    BuildAllIgnoresCleanup(cfg.name, targets, |targets|, o1, o2, BuildStart(cfg, o1));
  }

  /** The publish step ignores cleanup statuses once the earlier phases agree. */
  lemma PublishPhaseAgree(cfg: BuildConfig, selector: string, env: Environment, host: Host, o1: Oracle, o2: Oracle)
    requires CopyPhase(cfg, o2) == CopyPhase(cfg, o1)
    requires BuildPhase(cfg, selector, o2) == BuildPhase(cfg, selector, o1)
    requires AgreeBeyondCleanup(PublishPhase(cfg, selector, env, host, o1).trace, o1, o2, PublishStart(cfg, selector, o1))
    ensures PublishPhase(cfg, selector, env, host, o2) == PublishPhase(cfg, selector, env, host, o1)
  {
    assert PublishStart(cfg, selector, o2) == PublishStart(cfg, selector, o1);
    PublishStageAgree(cfg.pypi, env, host, LastPython(SelectedTargets(cfg, selector)), o1, o2,
                      PublishStart(cfg, selector, o1));
  }

  /**
   * Cleanup failure never changes the run: two oracles that agree on every
   * command except the best-effort cleanups (the `dist` folder and every
   * egg-info directory) give the same commands and the same outcome.
   */
  lemma CleanupsNeverMatter(cfg: BuildConfig, selector: string, env: Environment, host: Host, o1: Oracle, o2: Oracle)
    requires AgreeBeyondCleanup(WheelmanRun(cfg, selector, env, host, o1).trace, o1, o2, 0)
    ensures WheelmanRun(cfg, selector, env, host, o2) == WheelmanRun(cfg, selector, env, host, o1)
  {
    var copies := CopyPhase(cfg, o1).trace;
    var build := BuildTrace(cfg, selector, o1);
    RunTrace(cfg, selector, env, host, o1);
    AgreeOnPhases([DistCleanup], copies, build, PublishTrace(cfg, selector, env, host, o1), o1, o2);
    CopyPhaseAgree(cfg, o1, o2);
    if CopyPhase(cfg, o1).failed.None? {
      BuildPhaseAgree(cfg, selector, o1, o2);
      if BuildPhase(cfg, selector, o1).failure.None? {
        PublishPhaseAgree(cfg, selector, env, host, o1, o2);
      }
    }
    RunFromPhases(cfg, selector, env, host, o1, o2);
  }
}
