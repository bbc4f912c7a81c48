/**
 * The OAuth provider table: three provider records built from the process environment once it
 * has been loaded.  Client credentials come from `<NAME>_CLIENT_ID` / `<NAME>_CLIENT_SECRET`, and
 * every callback address is `APP_URL` followed by `/auth/callback/<name>`.
 */
module Providers {
  import opened Common
  import opened Strings

  datatype OAuthProvider = OAuthProvider(
    name: string, clientId: string, clientSecret: string,
    authUrl: string, tokenUrl: string, userInfoUrl: string,
    scope: seq<string>, redirectUri: string)

  /** The process environment: variable name to value. */
  type Env = map<string, string>

  /** `Deno.env.get(key) || ''`: an unset variable reads as the empty string. */
  function EnvOrEmpty(env: Env, key: string): (v: string)
    ensures key in env ==> v == env[key]
    ensures key !in env ==> v == ""
  {
    if key in env then env[key] else ""
  }

  /** `${Deno.env.get('APP_URL')}`: an unset variable is written as the text "undefined". */
  function AppUrlText(env: Env): string {
    if "APP_URL" in env then env["APP_URL"] else "undefined"
  }

  /** `createProvider`: the given endpoints and scopes, credentials from the environment, the callback address under APP_URL. */
  function CreateProvider(env: Env, name: string, authUrl: string, tokenUrl: string, userInfoUrl: string,
                          scope: seq<string>): (p: OAuthProvider)
    ensures p.name == name && p.authUrl == authUrl && p.tokenUrl == tokenUrl
    ensures p.userInfoUrl == userInfoUrl && p.scope == scope
    ensures p.clientId == EnvOrEmpty(env, UpperAscii(name) + "_CLIENT_ID")
    ensures p.clientSecret == EnvOrEmpty(env, UpperAscii(name) + "_CLIENT_SECRET")
    ensures p.redirectUri == AppUrlText(env) + "/auth/callback/" + name
  {
    OAuthProvider(name,
                  EnvOrEmpty(env, UpperAscii(name) + "_CLIENT_ID"),
                  EnvOrEmpty(env, UpperAscii(name) + "_CLIENT_SECRET"),
                  authUrl, tokenUrl, userInfoUrl, scope,
                  AppUrlText(env) + "/auth/callback/" + name)
  }

  /**
   * A provider's credential is the environment's value exactly when that is set and non-empty;
   * an unset or empty variable both give the empty credential.
   */
  lemma CreateProviderCredentials(env: Env, name: string, authUrl: string, tokenUrl: string, userInfoUrl: string,
                                  scope: seq<string>)
    ensures var p := CreateProvider(env, name, authUrl, tokenUrl, userInfoUrl, scope);
      var idKey, secretKey := UpperAscii(name) + "_CLIENT_ID", UpperAscii(name) + "_CLIENT_SECRET";
      && (p.clientId != "" ==> idKey in env && env[idKey] == p.clientId)
      && (p.clientId == "" <==> idKey !in env || env[idKey] == "")
      && (p.clientSecret != "" ==> secretKey in env && env[secretKey] == p.clientSecret)
      && (p.clientSecret == "" <==> secretKey !in env || env[secretKey] == "")
  {
  }

  /**
   * The callback address starts with APP_URL (or "undefined" when it is unset) and ends with
   * "/auth/callback/" and the name, so providers with different names never share one.
   */
  lemma CreateProviderCallbacks(env: Env, n1: string, n2: string,
                                a1: string, t1: string, u1: string, s1: seq<string>,
                                a2: string, t2: string, u2: string, s2: seq<string>)
    ensures var p := CreateProvider(env, n1, a1, t1, u1, s1);
      var prefix := AppUrlText(env) + "/auth/callback/";
      && |p.redirectUri| == |prefix| + |n1|
      && p.redirectUri[..|prefix|] == prefix && p.redirectUri[|prefix|..] == n1
      && ("APP_URL" !in env ==> p.redirectUri[..9] == "undefined")
    ensures n1 != n2 ==>
      CreateProvider(env, n1, a1, t1, u1, s1).redirectUri != CreateProvider(env, n2, a2, t2, u2, s2).redirectUri
  {
    var prefix := AppUrlText(env) + "/auth/callback/";
    var r1 := CreateProvider(env, n1, a1, t1, u1, s1).redirectUri;
    var r2 := CreateProvider(env, n2, a2, t2, u2, s2).redirectUri;
    assert r1 == prefix + n1 && r2 == prefix + n2;
    assert r1[|prefix|..] == n1 && r2[|prefix|..] == n2;
    if "APP_URL" !in env {
      assert prefix[..9] == "undefined";
      assert r1[..9] == prefix[..9];
    }
  }

  function Google(env: Env): OAuthProvider {
    CreateProvider(env, "google", "https://accounts.google.com/o/oauth2/v2/auth",
                   "https://oauth2.googleapis.com/token", "https://www.googleapis.com/oauth2/v2/userinfo",
                   ["email", "profile"])
  }

  function GitHub(env: Env): OAuthProvider {
    CreateProvider(env, "github", "https://github.com/login/oauth/authorize",
                   "https://github.com/login/oauth/access_token", "https://api.github.com/user",
                   ["user:email"])
  }

  function Twitter(env: Env): OAuthProvider {
    CreateProvider(env, "twitter", "https://twitter.com/i/oauth2/authorize",
                   "https://api.twitter.com/2/oauth2/token", "https://api.twitter.com/2/users/me",
                   ["tweet.read", "users.read"])
  }

  /** Google reads its credentials from GOOGLE_CLIENT_ID and GOOGLE_CLIENT_SECRET. */
  lemma GoogleCredentials(env: Env)
    ensures Google(env).clientId == EnvOrEmpty(env, "GOOGLE_CLIENT_ID")
    ensures Google(env).clientSecret == EnvOrEmpty(env, "GOOGLE_CLIENT_SECRET")
  {
    assert UpperAscii("google") == "GOOGLE";
    assert "GOOGLE" + "_CLIENT_ID" == "GOOGLE_CLIENT_ID";
    assert "GOOGLE" + "_CLIENT_SECRET" == "GOOGLE_CLIENT_SECRET";
  }

  /** GitHub reads its credentials from GITHUB_CLIENT_ID and GITHUB_CLIENT_SECRET. */
  lemma GitHubCredentials(env: Env)
    ensures GitHub(env).clientId == EnvOrEmpty(env, "GITHUB_CLIENT_ID")
    ensures GitHub(env).clientSecret == EnvOrEmpty(env, "GITHUB_CLIENT_SECRET")
  {
    assert UpperAscii("github") == "GITHUB";
    assert "GITHUB" + "_CLIENT_ID" == "GITHUB_CLIENT_ID";
    assert "GITHUB" + "_CLIENT_SECRET" == "GITHUB_CLIENT_SECRET";
  }

  lemma UpperTwitter()
    ensures UpperAscii("twitter") == "TWITTER"
  {
    assert UpperChar('t') == 'T' && UpperChar('w') == 'W' && UpperChar('i') == 'I';
    assert UpperChar('e') == 'E' && UpperChar('r') == 'R';
  }

  /** Twitter reads its credentials from TWITTER_CLIENT_ID and TWITTER_CLIENT_SECRET. */
  lemma TwitterCredentials(env: Env)
    ensures Twitter(env).clientId == EnvOrEmpty(env, "TWITTER_CLIENT_ID")
    ensures Twitter(env).clientSecret == EnvOrEmpty(env, "TWITTER_CLIENT_SECRET")
  {
    UpperTwitter();
    assert "TWITTER" + "_CLIENT_ID" == "TWITTER_CLIENT_ID";
    assert "TWITTER" + "_CLIENT_SECRET" == "TWITTER_CLIENT_SECRET";
  }

  /** The three providers are named google, github and twitter and carry their scopes. */
  lemma ProviderNames(env: Env)
    ensures Google(env).name == "google" && GitHub(env).name == "github" && Twitter(env).name == "twitter"
    ensures Google(env).scope == ["email", "profile"] && GitHub(env).scope == ["user:email"]
    ensures Twitter(env).scope == ["tweet.read", "users.read"]
  {
  }

  /** The callback addresses share the APP_URL prefix and differ in the provider name, so no two coincide. */
  lemma DistinctCallbacks(env: Env)
    ensures Google(env).redirectUri != GitHub(env).redirectUri
    ensures Google(env).redirectUri != Twitter(env).redirectUri
    ensures GitHub(env).redirectUri != Twitter(env).redirectUri
  {
    var g, h, t := Google(env), GitHub(env), Twitter(env);
    CreateProviderCallbacks(env, "google", "github", g.authUrl, g.tokenUrl, g.userInfoUrl, g.scope,
                            h.authUrl, h.tokenUrl, h.userInfoUrl, h.scope);
    CreateProviderCallbacks(env, "google", "twitter", g.authUrl, g.tokenUrl, g.userInfoUrl, g.scope,
                            t.authUrl, t.tokenUrl, t.userInfoUrl, t.scope);
    CreateProviderCallbacks(env, "github", "twitter", h.authUrl, h.tokenUrl, h.userInfoUrl, h.scope,
                            t.authUrl, t.tokenUrl, t.userInfoUrl, t.scope);
  }

  /** The module-level provider variables: unset until `initializeProviders` assigns them. */
  class ProviderRegistry {
    var google: Option<OAuthProvider>
    var github: Option<OAuthProvider>
    var twitter: Option<OAuthProvider>

    constructor ()
      ensures google == None && github == None && twitter == None
    {
      google, github, twitter := None, None, None;
    }

    /** `initializeProviders`: builds the three providers from `env`, stores them and returns them. */
    method InitializeProviders(env: Env) returns (g: OAuthProvider, h: OAuthProvider, t: OAuthProvider)
      modifies this
      ensures g == Google(env) && h == GitHub(env) && t == Twitter(env)
      ensures google == Some(g) && github == Some(h) && twitter == Some(t)
    {
      g := Google(env);
      h := GitHub(env);
      t := Twitter(env);
      google := Some(g);
      github := Some(h);
      twitter := Some(t);
    }
  }
}
