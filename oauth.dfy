/**
 * The OAuth login options: where the provider sends the user back to
 * (`getRedirect`) and the credentials passed to `signInWithOAuth`
 * (`getCreds`). Providers are the provider names as strings.
 */
module OAuth {
  import opened Wrappers
  import AuthCallback

  const DevCallback := "https://dev.wordleteams.com/auth/callback"
  const LocalCallback := "http://localhost:3000/auth/callback"
  const ProductionCallback := "https://wordleteams.com/auth/callback"

  /** `queryParams` that Google is given: offline access, consent asked again. */
  const GoogleQueryParams: map<string, string> := map["access_type" := "offline", "prompt" := "consent"]

  /** The `options` of `signInWithOAuth`. */
  datatype Options = Options(redirectTo: string, queryParams: Option<map<string, string>>, scopes: Option<string>)

  datatype Creds = Creds(provider: string, options: Options)

  /** `s` ends with `suffix`. */
  predicate EndsWith(s: string, suffix: string) {
    |suffix| <= |s| && s[|s| - |suffix|..] == suffix
  }

  /**
   * `getRedirect`, given `NEXT_PUBLIC_VERCEL_ENV` (missing when unset):
   * always a URL of the authentication callback route.
   */
  function GetRedirect(env: Option<string>): (url: string)
    ensures url in {DevCallback, LocalCallback, ProductionCallback}
    ensures EndsWith(url, AuthCallback.CallbackRoute)
  {
    if env == Some("preview") || env == Some("development") then DevCallback
    else if env == Some("local") then LocalCallback
    else ProductionCallback
  }

  /** Each environment is sent to its own callback host; every other value, unset included, to production. */
  lemma RedirectByEnvironment(env: Option<string>)
    ensures GetRedirect(env) == DevCallback <==> env == Some("preview") || env == Some("development")
    ensures GetRedirect(env) == LocalCallback <==> env == Some("local")
    ensures GetRedirect(env) == ProductionCallback <==>
              env !in {Some("preview"), Some("development"), Some("local")}
  {
  }

  /**
   * `getCreds`: the provider and `redirectTo` pass through unchanged;
   * Google alone gets `queryParams`, Azure alone gets the `offline_access` scope.
   */
  function GetCreds(redirectTo: string, provider: string): (c: Creds)
    ensures c.provider == provider && c.options.redirectTo == redirectTo
    ensures c.options.queryParams.Some? <==> provider == "google"
    ensures c.options.scopes.Some? <==> provider == "azure"
    ensures provider == "google" ==> c.options.queryParams.value == GoogleQueryParams
    ensures provider == "azure" ==> c.options.scopes.value == "offline_access"
  {
    match provider
    case "google" => Creds(provider, Options(redirectTo, Some(GoogleQueryParams), None))
    case "azure" => Creds(provider, Options(redirectTo, None, Some("offline_access")))
    case "github" => Creds(provider, Options(redirectTo, None, None))
    case "facebook" => Creds(provider, Options(redirectTo, None, None))
    case "slack" => Creds(provider, Options(redirectTo, None, None))
    case "workos" => Creds(provider, Options(redirectTo, None, None))
    case "apple" => Creds(provider, Options(redirectTo, None, None))
    case "twitter" => Creds(provider, Options(redirectTo, None, None))
    case "discord" => Creds(provider, Options(redirectTo, None, None))
    case _ => Creds(provider, Options(redirectTo, None, None))
  }

  /**
   * The credentials `OAuthLogin` signs in with: whatever the provider and
   * the environment, the provider returns the user to the callback route.
   */
  function LoginCreds(env: Option<string>, provider: string): (c: Creds)
    ensures c.provider == provider
    ensures EndsWith(c.options.redirectTo, AuthCallback.CallbackRoute)
  {
    GetCreds(GetRedirect(env), provider)
  }
}
