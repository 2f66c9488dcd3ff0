/**
 * The typed build configuration (the YAML document) and the environment
 * variables the script consults. Optional keys are `Option`s so that the
 * defaults the script applies with `dict.get` are explicit.
 */
module Config {
  import opened Wrappers

  /** One entry of a target group: an interpreter and which artifacts to build with it. */
  datatype TargetSpec = TargetSpec(python: string, sdist: Option<bool>, wheel: Option<bool>)

  /** The optional `pypi` section. */
  datatype PublishConfig = PublishConfig(onlyUploadTags: Option<bool>, targetUrl: Option<string>)

  datatype BuildConfig = BuildConfig(
    name: string,
    includeFiles: seq<string>,
    targets: map<string, seq<TargetSpec>>,
    pypi: Option<PublishConfig>)

  /** The environment variables read by the publish step. */
  datatype Environment = Environment(
    repoTag: Option<string>,        // APPVEYOR_REPO_TAG
    twineUsername: Option<string>,  // TWINE_USERNAME
    twinePassword: Option<string>)  // TWINE_PASSWORD

  /** `target.get('sdist', False)`: an sdist is built only when asked for. */
  function WantsSdist(t: TargetSpec): (b: bool)
    ensures b <==> t.sdist == Some(true)
  {
    t.sdist.GetOr(false)
  }

  /** `target.get('wheel', False)`: a wheel is built only when asked for. */
  function WantsWheel(t: TargetSpec): (b: bool)
    ensures b <==> t.wheel == Some(true)
  {
    t.wheel.GetOr(false)
  }

  /** The target group named by the selector; an unknown selector selects nothing. */
  function SelectedTargets(cfg: BuildConfig, selector: string): (ts: seq<TargetSpec>)
    ensures selector !in cfg.targets ==> ts == []
    ensures selector in cfg.targets ==> ts == cfg.targets[selector]
  {
    if selector in cfg.targets then cfg.targets[selector] else []
  }

  /** `only_upload_tags`, true unless the `pypi` section says false. */
  function OnlyUploadTags(pypi: Option<PublishConfig>): (b: bool)
    ensures !b <==> pypi.Some? && pypi.value.onlyUploadTags == Some(false)
  {
    match pypi
    case None => true
    case Some(p) => p.onlyUploadTags.GetOr(true)
  }

  /** `target_url`, the empty string when the section or the key is missing. */
  function TargetUrl(pypi: Option<PublishConfig>): (url: string)
    ensures url != [] ==> pypi.Some? && pypi.value.targetUrl == Some(url)
    ensures pypi.None? || pypi.value.targetUrl.None? ==> url == []
    ensures pypi.Some? && pypi.value.targetUrl.Some? ==> url == pypi.value.targetUrl.value
  {
    match pypi
    case None => ""
    case Some(p) => p.targetUrl.GetOr("")
  }

  /** A run is a tag build only when APPVEYOR_REPO_TAG is exactly "true". */
  function IsTag(env: Environment): (b: bool)
    ensures b <==> env.repoTag == Some("true")
  {
    env.repoTag.GetOr("false") == "true"
  }
}
