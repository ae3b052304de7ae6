/** Reading the Datadog credentials from the environment (`validateEnv`,
    `getConfig`). The environment is a map from variable names to values;
    a name that is not in it is an unset variable. */
module AppConfig {
  import opened Common

  type Env = map<string, string>

  datatype DatadogConfig = DatadogConfig(apiKey: string, appKey: string, site: string)

  const ApiKeyVar: string := "DATADOG_API_KEY"
  const AppKeyVar: string := "DATADOG_APP_KEY"
  const SiteVar: string := "DATADOG_SITE"
  const DefaultSite: string := "dd.datad0g.com"

  function Lookup(env: Env, key: string): Option<string> {
    if key in env then Some(env[key]) else None
  }

  /** `String.prototype.trim`: leading and trailing white space and line
      terminators removed. */
  function TrimStart(s: string): (r: string)
    ensures |r| <= |s| && r == s[|s| - |r|..]
    ensures r != [] ==> !IsJsWhitespace(r[0])
    ensures forall i :: 0 <= i < |s| - |r| ==> IsJsWhitespace(s[i])
  {
    if s != [] && IsJsWhitespace(s[0]) then TrimStart(s[1..]) else s
  }

  function TrimEnd(s: string): (r: string)
    ensures |r| <= |s| && r == s[..|r|]
    ensures r != [] ==> !IsJsWhitespace(r[|r| - 1])
    ensures forall i :: |r| <= i < |s| ==> IsJsWhitespace(s[i])
  {
    if s != [] && IsJsWhitespace(s[|s| - 1]) then TrimEnd(s[..|s| - 1]) else s
  }

  function Trim(s: string): string {
    TrimEnd(TrimStart(s))
  }

  /** Text made of white space only (the empty text included). */
  predicate Blank(s: string) {
    forall i :: 0 <= i < |s| ==> IsJsWhitespace(s[i])
  }

  /** A value trims to nothing exactly when it is white space only. */
  lemma TrimEmptyIffBlank(s: string)
    ensures Trim(s) == "" <==> Blank(s)
  {
    var t := TrimStart(s);
    if !Blank(s) {
      var i :| 0 <= i < |s| && !IsJsWhitespace(s[i]);
      assert i >= |s| - |t|;
      assert t[i - (|s| - |t|)] == s[i];
      assert t != [] && !IsJsWhitespace(t[0]);
    }
  }

  /** `validateEnv(key, value)`: an unset, empty or blank value is refused
      with a message naming the variable; any other value is returned as it
      is, untrimmed. */
  function ValidateEnv(key: string, value: Option<string>): (r: Result<string, string>)
    ensures r.Err? <==> value.None? || Blank(value.value)
    ensures r.Err? ==> r.error == key + " is required but not set"
    ensures r.Ok? ==> r.value == value.value
  {
    TrimEmptyIffBlankAll();
    if value.None? || value.value == "" || Trim(value.value) == "" then Err(key + " is required but not set")
    else Ok(value.value)
  }

  lemma TrimEmptyIffBlankAll()
    ensures forall s :: Trim(s) == "" <==> Blank(s)
  {
    forall s ensures Trim(s) == "" <==> Blank(s) {
      TrimEmptyIffBlank(s);
    }
  }

  /** A variable that is set to something other than white space. */
  predicate IsSet(env: Env, key: string) {
    key in env && !Blank(env[key])
  }

  /** `getConfig`: the API key is checked before the application key, so
      the first failure reported is that of the API key; the site falls back
      to the default when unset or empty. */
  function GetConfig(env: Env): (r: Result<DatadogConfig, string>)
    ensures r.Ok? <==> IsSet(env, ApiKeyVar) && IsSet(env, AppKeyVar)
    ensures !IsSet(env, ApiKeyVar) ==> r == Err(ApiKeyVar + " is required but not set")
    ensures IsSet(env, ApiKeyVar) && !IsSet(env, AppKeyVar) ==> r == Err(AppKeyVar + " is required but not set")
    ensures r.Ok? ==> r.value.apiKey == env[ApiKeyVar] && r.value.appKey == env[AppKeyVar]
    ensures r.Ok? ==> r.value.site == OrElse(Lookup(env, SiteVar).GetOr(""), DefaultSite)
  {
    match ValidateEnv(ApiKeyVar, Lookup(env, ApiKeyVar))
    case Err(e) => Err(e)
    case Ok(apiKey) =>
      match ValidateEnv(AppKeyVar, Lookup(env, AppKeyVar))
      case Err(e) => Err(e)
      case Ok(appKey) => Ok(DatadogConfig(apiKey, appKey, OrElse(Lookup(env, SiteVar).GetOr(""), DefaultSite)))
  }
}
