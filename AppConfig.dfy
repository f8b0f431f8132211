/** Which collector server the app talks to by default, and the named
    server environments a user can pick from. */
module Config {
  import opened Lang

  const DEFAULT_PRODUCTION_URL := "http://54.149.247.183:8080/"
  const DEFAULT_STAGING_URL := "http://54.149.247.183:8080/"
  const DEFAULT_LOCAL_URL := "http://54.149.247.183:8080/"

  /** What the build baked in. `serverUrlField` is what reading the
      `SERVER_URL` field of `BuildConfig` by reflection gives: `None` when
      the field is missing, is not a string, or the lookup fails. */
  datatype BuildConfig = BuildConfig(serverUrlField: Option<string>, debug: bool, buildType: string)

  /** `getServerUrl`: a non-empty `SERVER_URL` wins; otherwise a debug build
      uses the local default, a "staging" build the staging default, and any
      other build the production default. */
  function GetServerUrl(build: BuildConfig): (url: string)
  {
    if build.serverUrlField.Some? && build.serverUrlField.value != "" then build.serverUrlField.value
    else if build.debug then DEFAULT_LOCAL_URL
    else if build.buildType == "staging" then DEFAULT_STAGING_URL
    else DEFAULT_PRODUCTION_URL
  }

  /** The `ServerEnvironment` enum. */
  datatype ServerEnvironment = PRODUCTION | STAGING | LOCAL | CUSTOM

  /** `ServerEnvironment.values()`, in declaration order. */
  const ENVIRONMENTS: seq<ServerEnvironment> := [PRODUCTION, STAGING, LOCAL, CUSTOM]

  function DisplayName(e: ServerEnvironment): string
  {
    match e
    case PRODUCTION => "Production"
    case STAGING => "Staging"
    case LOCAL => "Local Development"
    case CUSTOM => "Custom"
  }

  function Url(e: ServerEnvironment): string
  {
    match e
    case PRODUCTION => DEFAULT_PRODUCTION_URL
    case STAGING => DEFAULT_STAGING_URL
    case LOCAL => DEFAULT_LOCAL_URL
    case CUSTOM => ""
  }

  /** The enum constant's `name`. */
  function Name(e: ServerEnvironment): string
  {
    match e
    case PRODUCTION => "PRODUCTION"
    case STAGING => "STAGING"
    case LOCAL => "LOCAL"
    case CUSTOM => "CUSTOM"
  }

  /** Every environment is listed once, and CUSTOM is the only one without
      a URL. */
  lemma EnvironmentsEnumerated(e: ServerEnvironment)
    ensures e in ENVIRONMENTS
    ensures Url(e) == "" <==> e == CUSTOM
    ensures forall i, j :: 0 <= i < j < |ENVIRONMENTS| ==> ENVIRONMENTS[i] != ENVIRONMENTS[j]
  {
  }

  /** The three named defaults are currently one and the same address. */
  lemma NamedDefaultsCoincide()
    ensures Url(PRODUCTION) == Url(STAGING) == Url(LOCAL) != Url(CUSTOM)
  {
  }

  /** Which URL the priority rule picks: the build's own URL exactly when it
      is set and non-empty, else one of the named defaults, chosen by the
      build type with DEBUG checked first. */
  lemma ServerUrlPriority(build: BuildConfig)
    ensures build.serverUrlField.Some? && build.serverUrlField.value != "" ==>
              GetServerUrl(build) == build.serverUrlField.value
    ensures !(build.serverUrlField.Some? && build.serverUrlField.value != "") ==>
              && GetServerUrl(build) in {Url(PRODUCTION), Url(STAGING), Url(LOCAL)}
              && (build.debug ==> GetServerUrl(build) == Url(LOCAL))
              && (!build.debug && build.buildType == "staging" ==> GetServerUrl(build) == Url(STAGING))
              && (!build.debug && build.buildType != "staging" ==> GetServerUrl(build) == Url(PRODUCTION))
    ensures GetServerUrl(build) != ""
  {
  }
}
