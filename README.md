# Wheelman build-and-publish run, modelled in Dafny

Wheelman is a CI script that builds Python sdists and wheels for a list of
interpreters and can then upload `dist/` to a package index with twine. This
project models one run of the script, after its configuration has been loaded:

- the process exit codes (`ExitCodes`);
- the best-effort removal of a leftover `dist` folder;
- the copy of every include file into the package folder;
- the fail-fast build loop over the selected target group. Each target goes
  through an egg-info cleanup, `pip install wheel`, an optional sdist and an
  optional wheel;
- the publish decision over the twine credentials, `only_upload_tags` and the
  tag signal, followed by the twine install and the upload.

Every external effect is a `Command` value: a tree removal, a file copy, a
pip install, a `setup.py` call or a twine upload. The status of the k-th
command a run issues comes from an oracle `oracle(k)`, where 0 means success.
The model therefore yields the ordered trace of commands together with the
outcome. An outcome is either an exit code, or an uncaught Python exception
(`Crash`) at the points listed under "## Left out". The whole-run model uses
the corrected upload-failure exit of line 250 (see "## Findings"); the script
as written is modelled beside it.

The files, in dependency order:

- `wrappers.dfy`: `Option`.
- `exit_codes.dfy`: the exit codes and their numbers.
- `config.dfy`: the typed configuration, the environment, and the script's
  defaults for missing keys.
- `commands.dfy`: commands, the oracle, and agreement between two oracles.
- `prep.dfy`: the include-file copy plan and loop.
- `build.dfy`: the build loop, specified by `BuildAll` and run by
  `BuildTargets`.
- `publish.dfy`: the publish decision and the upload, specified by
  `PublishStage` and run by `RunPublish`.
- `wheelman.dfy`: the whole run, specified by `WheelmanRun` and run by
  `Wheelman`, together with the properties that span phases.

## Model

| member | source | states |
|---|---|---|
| ExitCodes.Code | wheelman.py:38-53 | Each exit kind has its number, which is below 256; the number is 0 exactly for SUCCESS |
| ExitCodes.CodeInjective | wheelman.py:38-53 | Distinct exit kinds have distinct numbers, so CI can tell failures apart |
| Config.WantsSdist | wheelman.py:174 | An sdist is built only when `sdist` is present and true; a missing key means no sdist |
| Config.WantsWheel | wheelman.py:185 | A wheel is built only when `wheel` is present and true; a missing key means no wheel |
| Config.SelectedTargets | wheelman.py:140 | A reference definition of line 140's lookup with an empty default; what it means for the run is stated by Wheelman.UnknownSelector |
| Config.OnlyUploadTags | wheelman.py:199 | `only_upload_tags` is false exactly when the `pypi` section sets it to false; otherwise it defaults to true |
| Config.TargetUrl | wheelman.py:219 | A configured URL is returned unchanged; a missing section or key gives the empty string; a non-empty result is always the configured one |
| Config.IsTag | wheelman.py:200 | A run is a tag build exactly when APPVEYOR_REPO_TAG is the string "true"; a missing variable is not a tag |
| Commands.Argv | wheelman.py:160-249 | Every process runs under the command's interpreter. `pip install` runs pip as a module and installs exactly the named package. `setup.py` gets exactly the command's verb. The upload runs twine's main module with `upload`, is non-interactive, passes the repository URL after `--repository-url`, and ends with the `dist/*` glob |
| Commands.ArgvInjective | wheelman.py:160-249 | Distinct commands start distinct processes, so a trace of commands records exactly which processes ran with which arguments |
| Prep.DestinationInPackage | wheelman.py:135 | An include file is copied to `<name>/<file>`, inside the package folder |
| Prep.CopyPlan | wheelman.py:133-135 | There is one (source, destination) pair per include file, in list order, with the destination inside the package folder |
| Prep.CopyAll | wheelman.py:133-135 | Files are copied in plan order. The loop either copies every file, all with status 0, or stops at the first failing copy and names that file |
| Prep.CopyIncludeFiles | wheelman.py:133-135 | The copy loop issues exactly the commands of CopyAll and reports the same failure |
| Prep.CopyAllHalts | wheelman.py:133-135 | Once a copy fails, no later file is copied |
| Prep.CopyAllAgree | wheelman.py:133-135 | The copies depend only on the statuses of the copies issued |
| Build.FailureCode | wheelman.py:160-190 | A reference table of the exit code for each failing build command: pip gives PIP_FAILURE, the sdist BUILD_FAILED_SOURCE_DIST, the wheel BUILD_FAILED_WHEEL. Build.BuildTargetFailFast proves the build loop uses it |
| Build.BuildTarget | wheelman.py:148-161 | A target ends the run with PIP_FAILURE exactly when its `pip install wheel` returns non-zero |
| Build.BuildTargetFailFast | wheelman.py:148-190 | Within one target, only a non-cleanup command returning non-zero fails it. That command is the last one issued, and the exit code is the one for that command |
| Build.BuildTargetOrder | wheelman.py:148-190 | A target runs the cleanup, then `pip install wheel`, then the sdist only if asked for, then the wheel only if asked for, all with the target's interpreter. Every later command is that sdist or that wheel. With both flags off, only the cleanup and pip run. A target that did not fail built exactly what it asked for |
| Build.BuildAll | wheelman.py:140 | The reference definition of the first n iterations of the loop; zero iterations issue no command and end with no failure. Its meaning is stated by Build.BuildAllComplete, Build.BuildAllFailFast, Build.BuildAllHalts, Build.BuildAllPrefix and Build.BuildAllIgnoresCleanup |
| Build.BuildAllNext | wheelman.py:140-190 | After a target that did not fail, the next target's commands follow the earlier ones |
| Build.BuildTargetBuilt | wheelman.py:148-190 | A target that did not fail issued `pip install wheel` and every sdist and wheel it asked for |
| Build.BuildAllFailureSticks | wheelman.py:140-190 | A failure in an earlier iteration is still the loop's failure after the next one |
| Build.BuildAllComplete | wheelman.py:140-190 | No partial release: when the loop did not fail, every selected target issued `pip install wheel` with its interpreter and every sdist and wheel it asked for |
| Build.BuildAllFailFast | wheelman.py:140-190 | The whole loop is fail-fast: it fails only at its last command, with that command's exit code, and every earlier non-cleanup command returned 0 |
| Build.LastPython | wheelman.py:155 | After the loop, `py_exe` is the last target's interpreter, and it is unbound exactly when no target ran |
| Build.BuildAllHalts | wheelman.py:140-190 | Once target i fails, no command of any later target is issued |
| Build.BuildAllPrefix | wheelman.py:140 | Targets are processed in list order: the commands of earlier targets come first |
| Build.BuildTargetIgnoresCleanup | wheelman.py:148-153 | Whether the egg-info cleanup succeeds never changes what a target does |
| Build.BuildAllNextIgnoresCleanup | wheelman.py:140-153 | One more target preserves the fact that cleanup statuses do not matter |
| Build.BuildAllIgnoresCleanup | wheelman.py:140-153 | Cleanup failure never changes the commands or the failure of the build loop |
| Build.BuildOne | wheelman.py:148-190 | The loop body issues exactly the commands of BuildTarget and reports the same failure |
| Build.BuildTargets | wheelman.py:140-190 | The loop issues exactly the commands of BuildAll over all targets and stops at the same failure. When nothing failed, `py_exe` is the last target's interpreter |
| Publish.Decide | wheelman.py:207-258 | The decision is Upload exactly when both credentials are present and the tag condition holds. It is missing-credentials exactly when one credential is present. It is Skip exactly when neither credential is present, or both are and the tag condition fails |
| Publish.GateUploads | wheelman.py:199-212 | With the defaults applied, an upload is attempted exactly when both credentials are present and either the run is a tag build or `only_upload_tags` is false |
| Publish.DecisionTable | wheelman.py:207-258 | The truth table on literal inputs |
| Publish.PublishStage | wheelman.py:207-264 | The publish step issues at most the twine install and then the upload, with the URL and interpreters of the script. Exit 51 exactly when one credential is present. Exit 52 exactly on the upload branch with no URL. A crash exactly when no target bound `py_exe`. Exit 30 exactly when the install fails, and 50 exactly when the upload fails. Exit 0 exactly when the upload is skipped or both commands succeed. This is the corrected step: as written, line 250 raises AttributeError instead of exiting with 50 |
| Publish.RunPublish | wheelman.py:207-264 | The publish statements issue exactly the commands of PublishStage and end with the same outcome |
| Publish.PublishStageAsWritten | wheelman.py:245-250 | The as-written step issues the same commands as the corrected one |
| Publish.UploadFailureAsWritten | wheelman.py:245-250 | When the upload fails, the script as written ends in a crash, while the corrected step exits with 50 |
| Publish.UploadFailureWitness | wheelman.py:245-250 | A concrete configuration, environment and oracle reach the failing upload and the crash |
| Publish.PublishFailuresReported | wheelman.py:226-250 | In the corrected step, any command that returns non-zero ends the run with a non-zero exit code |
| Publish.PublishStageAgree | wheelman.py:226-250 | The publish step depends only on the statuses of the commands it issued |
| Wheelman.WheelmanRun | wheelman.py:119-267 | Every run starts with the best-effort removal of `dist`. The run uses the corrected line 250 |
| Wheelman.Wheelman | wheelman.py:119-267 | The script's statements issue exactly the commands of WheelmanRun and end with the same outcome, with line 250 corrected |
| Wheelman.NoUploadBeforePublish | wheelman.py:119-190 | No command of the cleanup, copy or build phases is an upload |
| Wheelman.UploadIff | wheelman.py:207-249 | An upload is attempted exactly when all of these hold: the copies and builds went through, the gate says Upload, a target URL is set, a target ran, and the twine install returned 0 |
| Wheelman.UploadMeansAllBuilt | wheelman.py:140-249 | A run that uploads built every target of the selected group, each with `pip install wheel` and every sdist and wheel it asked for, so no version goes up with only some wheels |
| Wheelman.UploadNeedsCredentials | wheelman.py:207-212 | An upload happens only with both credentials and with the tag condition satisfied |
| Wheelman.FirstFailureHalts | wheelman.py:140-190 | Once target i fails, the run ends with that command's non-zero exit code. Its trace holds nothing of later targets and no upload |
| Wheelman.CredentialOutcomes | wheelman.py:252-267 | After the build, exactly one credential gives exit 51. A skipped upload gives exit 0 without a publish command |
| Wheelman.MissingTargetUrl | wheelman.py:219-223 | On the upload branch, a missing or empty `target_url` gives exit 52 before twine is installed |
| Wheelman.UnknownSelector | wheelman.py:140 | A selector with no group builds nothing, gets no build or pip exit code from the loop, and does not upload |
| Wheelman.SuccessReachesPublish | wheelman.py:119-267 | A run that exits 0 got past the copies and the builds |
| Wheelman.PassedBeforePublish | wheelman.py:119-190 | Every copy and build command of a run that reaches publishing returned 0, cleanups aside |
| Wheelman.SuccessMeansNoFailure | wheelman.py:119-267 | A run that exits 0 had every non-cleanup command return 0: no failure goes unreported. |
| Wheelman.CopyPhaseAgree | wheelman.py:133-135 | The copy phase depends only on the statuses of the copies |
| Wheelman.RunTrace | wheelman.py:119-267 | The trace is the cleanup, then the copies, then the build commands, then the publish commands, each phase only if it was reached |
| Wheelman.CleanupsNeverMatter | wheelman.py:119-153 | Two oracles that differ only on cleanup statuses (`dist` and every egg-info) give the same run |

## Left out

- Argument parsing (wheelman.py:75-87) is not modelled: the target selector is a parameter. As written, line 87 calls `args.parse_args()` on a name that was never assigned.
- Loading the YAML file and reporting its errors (wheelman.py:92-111) is not modelled: the configuration is a typed `BuildConfig`. Line 100 is Python 2 `except X, exc:` syntax.
- A missing required key (`include_files`, `targets`, `name` or a target's `python`) raises KeyError in the script. This cannot happen in the model, because every required field is present in the typed configuration.
- YAML truthiness and explicit nulls are not modelled: `sdist`, `wheel` and `only_upload_tags` are `Option<bool>`, so values such as `1` or `"yes"` are not represented. An explicit null is not represented either. As written, `only_upload_tags:` with no value makes line 199 return `None`, so line 212 uploads on every commit, the opposite of the default the comment at lines 197-198 promises; the model reads it as absent, so true. A null `pypi:` section crashes at line 199 (`None.get`); the model cannot express it.
- Printing and flushing stdout are left out. So is line 36, which uses `sys` before it is imported at line 56.
- The dependency imports (wheelman.py:62-70) are left out. Their failure path names `ExitCodes.ERROR_MISSING_DEPENDENCIES`, an attribute that does not exist.
- The twine import (wheelman.py:232-236) is left out. `Host` supplies the path of twine's `__main__` module and `sys.executable` (line 238). The import's failure path also names the missing `ERROR_MISSING_DEPENDENCIES`.
- Real filesystem and process effects are left out: every `shutil` and `subprocess.run` call is a `Command` whose status comes from the oracle.
- A `subprocess.run` whose interpreter cannot be started (lines 160, 177, 188, 226, 245) raises FileNotFoundError or PermissionError, and nothing catches it. The oracle supplies only return codes, so the model does not represent this crash: such a run is modelled as if the command had returned non-zero.
- Wheelman.WheelmanRun and Wheelman.Wheelman run the corrected publish step (Publish.PublishStage), which exits with 50 on a failed upload. As written, line 250 raises AttributeError there; Publish.PublishStageAsWritten models that.
- Exceptions are represented in a reduced form. A failing `shutil.copyfile` (line 135) is `Crash(CopyFailed(file))`. Line 226 reading an unbound `py_exe` when no target ran is `Crash(NoInterpreter)`. The Python exception types are not modelled.
- Publish.PublishStageAsWritten: its own contract states only the trace; its outcome on a failed upload is stated by Publish.UploadFailureAsWritten.

## Findings

| source | as written | input that shows it | evidently intended | confidence | as-written member | corrected member |
|---|---|---|---|---|---|---|
| wheelman.py:250 | A failed upload calls `exit(ExitCodes.PYPI_UPLOAD_FAILURE)`, but `ExitCodes` has no such attribute. The run ends in an AttributeError, not an exit code | Both credentials set, `only_upload_tags: false`, a `target_url`, one target, and every command returns 0 except the upload | Exit with PYPI_FAILURE (50) | not executed | Publish.UploadFailureAsWritten | Publish.PublishFailuresReported |
