/**
 * The external effects the script performs, as abstract commands, and the
 * oracle that supplies their results.
 */
module Commands {
  import opened ExitCodes

  datatype Command =
    | RemoveTree(path: string)                         // shutil.rmtree, failure swallowed
    | CopyFile(source: string, destination: string)    // shutil.copyfile
    | PipInstall(python: string, package: string)      // <python> -m pip install <package>
    | SetupPy(python: string, verb: string)            // <python> setup.py <verb>
    | TwineUpload(python: string, twine: string, url: string)

  /**
   * The status of every command, by its position in the run: `oracle(k)` is
   * what the k-th command issued returned (for a subprocess its return code,
   * for a file operation non-zero when it raised).
   */
  type Oracle = nat -> int

  /** Cleanups whose failure the script deliberately ignores. */
  predicate BestEffort(c: Command) {
    c.RemoveTree?
  }

  /** The oracles `o1` and `o2` give the same status to every command of `tr` except the cleanups. */
  ghost predicate AgreeBeyondCleanup(tr: seq<Command>, o1: Oracle, o2: Oracle, pos: nat) {
    forall k :: 0 <= k < |tr| && !BestEffort(tr[k]) ==> o1(pos + k) == o2(pos + k)
  }

  lemma AgreeOnPrefix(a: seq<Command>, tr: seq<Command>, o1: Oracle, o2: Oracle, pos: nat)
    requires a <= tr && AgreeBeyondCleanup(tr, o1, o2, pos)
    ensures AgreeBeyondCleanup(a, o1, o2, pos)
  {
    forall k | 0 <= k < |a| && !BestEffort(a[k]) ensures o1(pos + k) == o2(pos + k) {
      assert a[k] == tr[k];
    }
  }

  lemma AgreeOnSuffix(a: seq<Command>, b: seq<Command>, o1: Oracle, o2: Oracle, pos: nat)
    requires AgreeBeyondCleanup(a + b, o1, o2, pos)
    ensures AgreeBeyondCleanup(b, o1, o2, pos + |a|)
  {
    forall k | 0 <= k < |b| && !BestEffort(b[k]) ensures o1(pos + |a| + k) == o2(pos + |a| + k) {
      assert (a + b)[|a| + k] == b[k];
    }
  }

  /** Agreement on a run carries over to any stretch of it. */
  lemma AgreeOnSegment(a: seq<Command>, b: seq<Command>, c: seq<Command>, o1: Oracle, o2: Oracle, pos: nat)
    requires AgreeBeyondCleanup(a + b + c, o1, o2, pos)
    ensures AgreeBeyondCleanup(b, o1, o2, pos + |a|)
  {
    assert a + b + c == a + (b + c);
    AgreeOnSuffix(a, b + c, o1, o2, pos);
    AgreeOnPrefix(b, b + c, o1, o2, pos + |a|);
  }

  /** Agreement on a run made of four stretches is agreement on each of the last three. */
  lemma AgreeOnPhases(a: seq<Command>, b: seq<Command>, c: seq<Command>, d: seq<Command>, o1: Oracle, o2: Oracle)
    requires AgreeBeyondCleanup(a + b + c + d, o1, o2, 0)
    ensures AgreeBeyondCleanup(b, o1, o2, |a|)
    ensures AgreeBeyondCleanup(c, o1, o2, |a| + |b|)
    ensures AgreeBeyondCleanup(d, o1, o2, |a| + |b| + |c|)
  {
    assert a + b + c + d == a + b + (c + d);
    AgreeOnSegment(a, b, c + d, o1, o2, 0);
    AgreeOnSegment(a + b, c, d, o1, o2, 0);
    assert a + b + c + d == a + b + c + d + [];
    AgreeOnSegment(a + b + c, d, [], o1, o2, 0);
  }

  /** Every command of `tr`, issued from `pos` on, returned 0 unless it is a best-effort cleanup. */
  ghost predicate AllPassed(tr: seq<Command>, oracle: Oracle, pos: nat) {
    forall k :: 0 <= k < |tr| && !BestEffort(tr[k]) ==> oracle(pos + k) == 0
  }

  lemma AllPassedAppend(a: seq<Command>, b: seq<Command>, oracle: Oracle, pos: nat)
    requires AllPassed(a, oracle, pos) && AllPassed(b, oracle, pos + |a|)
    ensures AllPassed(a + b, oracle, pos)
  {
    forall k | 0 <= k < |a + b| && !BestEffort((a + b)[k]) ensures oracle(pos + k) == 0 {
      if k >= |a| {
        assert (a + b)[k] == b[k - |a|];
      }
    }
  }

  /** The argument vector handed to `subprocess.run` for a process command. */
  function Argv(c: Command): (argv: seq<string>)
    requires c.PipInstall? || c.SetupPy? || c.TwineUpload?
    ensures |argv| >= 3 && argv[0] == c.python
    ensures c.PipInstall? ==>
              |argv| == 5 && argv[1] == "-m" && argv[2] == "pip" && argv[3] == "install" && argv[4] == c.package
    ensures c.SetupPy? ==> |argv| == 3 && argv[1] == "setup.py" && argv[2] == c.verb
    ensures c.TwineUpload? ==>
              |argv| == 7 && argv[1] == c.twine && argv[2] == "upload" &&
              argv[3] == "--non-interactive" &&
              argv[4] == "--repository-url" && argv[5] == c.url && argv[6] == "dist/*"
  {
    match c
    case PipInstall(py, pkg) => [py, "-m", "pip", "install", pkg]
    case SetupPy(py, verb) => [py, "setup.py", verb]
    case TwineUpload(py, twine, url) =>
      [py, twine, "upload", "--non-interactive", "--repository-url", url, "dist/*"]
  }

  /**
   * A command is recovered from its argument vector, so a trace of commands
   * records exactly which processes were started and with what arguments.
   */
  lemma ArgvInjective(c1: Command, c2: Command)
    requires c1.PipInstall? || c1.SetupPy? || c1.TwineUpload?
    requires c2.PipInstall? || c2.SetupPy? || c2.TwineUpload?
    requires Argv(c1) == Argv(c2)
    ensures c1 == c2
  {
    var a := Argv(c1);
    assert |a| == |Argv(c2)| && a[1] == Argv(c2)[1];
  }

  datatype CrashReason =
    | CopyFailed(file: string)         // shutil.copyfile raised; nothing catches it
    | NoInterpreter                    // py_exe read after a loop that never ran
    | UndefinedExitCode(name: string)  // exit(ExitCodes.<name>) with no such attribute

  /** How a run ends: a deliberate exit code, or an uncaught Python exception. */
  datatype Outcome = Exit(code: ExitCode) | Crash(reason: CrashReason)
}
