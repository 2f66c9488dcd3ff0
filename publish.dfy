/**
 * The publish step: decide from the credentials, `only_upload_tags` and the
 * tag signal whether to upload, and if so install twine and upload every file under `dist`.
 */
module Publish {
  import opened Wrappers
  import opened ExitCodes
  import opened Config
  import opened Commands

  datatype Decision = Upload | SkipUpload | MissingEnvironmentVars

  /**
   * The three-way branch on the credentials and the tag condition. The second
   * test compares username and password as the script does (`!=` between an
   * absent and a present value), which amounts to "exactly one is present".
   */
  function Decide(username: Option<string>, password: Option<string>, onlyTags: bool, isTag: bool): (d: Decision)
    ensures d == Upload <==> username.Some? && password.Some? && (!onlyTags || isTag)
    ensures d == MissingEnvironmentVars <==> username.Some? != password.Some?
    ensures d == SkipUpload <==>
              (username.None? && password.None?) ||
              (username.Some? && password.Some? && onlyTags && !isTag)
  {
    if username.Some? && password.Some? && ((onlyTags && isTag) || !onlyTags) then
      Upload
    else if (username.None? || password.None?) && username != password then
      MissingEnvironmentVars
    else
      SkipUpload
  }

  /** The decision for a configuration and an environment, with the script's defaults. */
  function Gate(pypi: Option<PublishConfig>, env: Environment): Decision {
    Decide(env.twineUsername, env.twinePassword, OnlyUploadTags(pypi), IsTag(env))
  }

  /** The upload is attempted iff both credentials are present and the tag condition holds. */
  lemma GateUploads(pypi: Option<PublishConfig>, env: Environment)
    ensures Gate(pypi, env) == Upload <==>
              env.twineUsername.Some? && env.twinePassword.Some? &&
              (env.repoTag == Some("true") || (pypi.Some? && pypi.value.onlyUploadTags == Some(false)))
  {
  }

  /** The rows of the decision table, with literal inputs. */
  lemma DecisionTable()
    ensures Decide(Some("u"), Some("p"), true, true) == Upload
    ensures Decide(Some("u"), Some("p"), true, false) == SkipUpload
    ensures Decide(Some("u"), Some("p"), false, true) == Upload
    ensures Decide(Some("u"), Some("p"), false, false) == Upload
    ensures Decide(Some("u"), None, true, true) == MissingEnvironmentVars
    ensures Decide(None, Some("p"), false, false) == MissingEnvironmentVars
    ensures Decide(None, None, false, true) == SkipUpload
  {
  }

  /** `sys.executable` and the path of twine's `__main__` module, found by import. */
  datatype Host = Host(executable: string, twineMain: string)

  /** The commands the publish step issued and how the run ends. */
  datatype Published = Published(trace: seq<Command>, outcome: Outcome)

  function TwineInstall(python: string): Command {
    PipInstall(python, "twine")
  }

  /**
   * The publish step, its first command issued at `pos`. `pyExe` is the
   * interpreter left in `py_exe` by the build loop, absent when no target ran.
   */
  function PublishStage(pypi: Option<PublishConfig>, env: Environment, host: Host,
                        pyExe: Option<string>, oracle: Oracle, pos: nat): (r: Published)
    ensures |r.trace| <= 2
    ensures |r.trace| > 0 <==> Gate(pypi, env) == Upload && TargetUrl(pypi) != "" && pyExe.Some?
    ensures |r.trace| > 0 ==> r.trace[0] == TwineInstall(pyExe.value)
    ensures |r.trace| == 2 <==> |r.trace| > 0 && oracle(pos) == 0
    ensures |r.trace| == 2 ==> r.trace[1] == TwineUpload(host.executable, host.twineMain, TargetUrl(pypi))
    ensures r.outcome == Exit(PypiMissingEnvironmentVars) <==>
              env.twineUsername.Some? != env.twinePassword.Some?
    ensures r.outcome == Exit(PypiMissingConfigVars) <==> Gate(pypi, env) == Upload && TargetUrl(pypi) == ""
    ensures r.outcome.Crash? <==> Gate(pypi, env) == Upload && TargetUrl(pypi) != "" && pyExe.None?
    ensures r.outcome == Exit(PipFailure) <==> |r.trace| > 0 && oracle(pos) != 0
    ensures r.outcome == Exit(PypiFailure) <==> |r.trace| == 2 && oracle(pos + 1) != 0
    ensures r.outcome == Exit(Success) <==>
              Gate(pypi, env) == SkipUpload ||
              (|r.trace| == 2 && oracle(pos) == 0 && oracle(pos + 1) == 0)
  {
    match Gate(pypi, env)
    case MissingEnvironmentVars => Published([], Exit(PypiMissingEnvironmentVars))
    case SkipUpload => Published([], Exit(Success))
    case Upload =>
      var url := TargetUrl(pypi);
      if url == "" then Published([], Exit(PypiMissingConfigVars))
      else if pyExe.None? then Published([], Crash(NoInterpreter))
      else
        var install := TwineInstall(pyExe.value);
        if oracle(pos) != 0 then Published([install], Exit(PipFailure))
        else
          var upload := TwineUpload(host.executable, host.twineMain, url);
          if oracle(pos + 1) != 0 then Published([install, upload], Exit(PypiFailure))
          else Published([install, upload], Exit(Success))
  }

  /** The publish step as the script runs it, command after command. */
  method RunPublish(pypi: Option<PublishConfig>, env: Environment, host: Host,
                    pyExe: Option<string>, oracle: Oracle, pos: nat)
    returns (trace: seq<Command>, outcome: Outcome)
    ensures Published(trace, outcome) == PublishStage(pypi, env, host, pyExe, oracle, pos)
  {
    trace := [];
    var decision := Decide(env.twineUsername, env.twinePassword, OnlyUploadTags(pypi), IsTag(env));
    if decision == Upload {
      var url := TargetUrl(pypi);
      if url == "" {
        outcome := Exit(PypiMissingConfigVars);
        return;
      }
      if pyExe.None? {
        outcome := Crash(NoInterpreter);
        return;
      }
      var rc := oracle(pos + |trace|);
      trace := trace + [TwineInstall(pyExe.value)];
      if rc != 0 {
        outcome := Exit(PipFailure);
        return;
      }
      rc := oracle(pos + |trace|);
      trace := trace + [TwineUpload(host.executable, host.twineMain, url)];
      if rc != 0 {
        outcome := Exit(PypiFailure);
        return;
      }
    } else if decision == MissingEnvironmentVars {
      outcome := Exit(PypiMissingEnvironmentVars);
      return;
    }
    outcome := Exit(Success);
  }

  /**
   * The publish step as written: a failed upload calls
   * `exit(ExitCodes.PYPI_UPLOAD_FAILURE)`, an attribute `ExitCodes` does not
   * have, so the run ends in an AttributeError instead of an exit code.
   */
  function PublishStageAsWritten(pypi: Option<PublishConfig>, env: Environment, host: Host,
                                 pyExe: Option<string>, oracle: Oracle, pos: nat): (r: Published)
    ensures r.trace == PublishStage(pypi, env, host, pyExe, oracle, pos).trace
  {
    var corrected := PublishStage(pypi, env, host, pyExe, oracle, pos);
    if corrected.outcome == Exit(PypiFailure) then
      corrected.(outcome := Crash(UndefinedExitCode("PYPI_UPLOAD_FAILURE")))
    else
      corrected
  }

  /**
   * Whenever the upload itself fails, the script as written reports no exit
   * code at all, while the corrected step reports PYPI_FAILURE, a non-zero code.
   */
  lemma UploadFailureAsWritten(pypi: Option<PublishConfig>, env: Environment, host: Host,
                               pyExe: Option<string>, oracle: Oracle, pos: nat)
    requires |PublishStage(pypi, env, host, pyExe, oracle, pos).trace| == 2
    requires oracle(pos + 1) != 0
    ensures PublishStageAsWritten(pypi, env, host, pyExe, oracle, pos).outcome.Crash?
    ensures PublishStage(pypi, env, host, pyExe, oracle, pos).outcome == Exit(PypiFailure)
    ensures Code(PublishStage(pypi, env, host, pyExe, oracle, pos).outcome.code) == 50
  {
  }

  /** A concrete run that reaches the failing upload. */
  lemma UploadFailureWitness()
    ensures var r := PublishStageAsWritten(
              Some(PublishConfig(Some(false), Some("https://upload.example"))),
              Environment(None, Some("u"), Some("p")),
              Host("python", "twine/__main__.py"),
              Some("python3.8"), k => if k == 1 then 1 else 0, 0);
            r.outcome == Crash(UndefinedExitCode("PYPI_UPLOAD_FAILURE")) &&
            r.trace[1].TwineUpload?
  {
  }

  /** In the corrected step, a command that returns non-zero always ends the run with a failing exit code. */
  lemma PublishFailuresReported(pypi: Option<PublishConfig>, env: Environment, host: Host,
                                pyExe: Option<string>, oracle: Oracle, pos: nat, k: nat)
    requires k < |PublishStage(pypi, env, host, pyExe, oracle, pos).trace|
    requires oracle(pos + k) != 0
    ensures PublishStage(pypi, env, host, pyExe, oracle, pos).outcome.Exit?
    ensures Code(PublishStage(pypi, env, host, pyExe, oracle, pos).outcome.code) != 0
  {
  }

  /** The publish step depends on the oracle only through the statuses of the commands it issued. */
  lemma PublishStageAgree(pypi: Option<PublishConfig>, env: Environment, host: Host,
                          pyExe: Option<string>, o1: Oracle, o2: Oracle, pos: nat)
    requires AgreeBeyondCleanup(PublishStage(pypi, env, host, pyExe, o1, pos).trace, o1, o2, pos)
    ensures PublishStage(pypi, env, host, pyExe, o2, pos) == PublishStage(pypi, env, host, pyExe, o1, pos)
  {
    var tr := PublishStage(pypi, env, host, pyExe, o1, pos).trace;
    if |tr| > 0 {
      assert !BestEffort(tr[0]) && o1(pos + 0) == o2(pos + 0);
    }
    if |tr| == 2 {
      assert !BestEffort(tr[1]) && o1(pos + 1) == o2(pos + 1);
    }
  }
}
