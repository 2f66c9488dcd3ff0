/** The process exit codes of the build-and-publish script (class `ExitCodes`). */
module ExitCodes {

  datatype ExitCode =
    | Success
    | Unspecified
    | MissingDependencies
    | ConfigFileNotFound
    | ConfigYamlParsingError
    | BuildFailedWheel
    | BuildFailedSourceDist
    | PipFailure
    | PypiFailure
    | PypiMissingEnvironmentVars
    | PypiMissingConfigVars

  /** The numeric status the process hands back to the CI system. */
  function Code(e: ExitCode): (n: nat)
    ensures n < 256
    ensures n == 0 <==> e == Success
  {
    match e
    case Success => 0
    case Unspecified => 1
    case MissingDependencies => 10
    case ConfigFileNotFound => 11
    case ConfigYamlParsingError => 12
    case BuildFailedWheel => 20
    case BuildFailedSourceDist => 21
    case PipFailure => 30
    case PypiFailure => 50
    case PypiMissingEnvironmentVars => 51
    case PypiMissingConfigVars => 52
  }

  /** Distinct exit kinds are reported with distinct numbers, so CI can tell them apart. */
  lemma CodeInjective(a: ExitCode, b: ExitCode)
    ensures Code(a) == Code(b) ==> a == b
  {
  }
}
