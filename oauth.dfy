/**
 * The OAuth 2.0 authorization-code flow with PKCE (RFC 7636).  Starting a login stores a
 * ten-minute state record holding a fresh code verifier and sends the user to the provider with
 * the S256 code challenge; the callback looks the state up, exchanges the code (sending the stored
 * verifier), fetches the user's profile, stores a seven-day provider session under
 * ["sessions", userId] and deletes the state.
 */
module OAuthFlow {
  import opened Common
  import opened Strings
  import opened Keys
  import opened Store
  import opened Schema
  import opened Providers
  import Base64
  import Utf8
  import FormUrlEncoded

  // ---------------------------------------------------------------- PKCE

  /** The characters RFC 7636, section 4.1, allows in a code verifier. */
  predicate IsUnreserved(c: char) {
    ('A' <= c <= 'Z') || ('a' <= c <= 'z') || ('0' <= c <= '9') || c == '-' || c == '.' || c == '_' || c == '~'
  }

  /** `generateCodeVerifier`: the random octets, standard Base64, made URL-safe by three replacements. */
  function CodeVerifier(random: seq<byte>): string {
    Base64.ToUrlSafe(Base64.EncodeStandard(random))
  }

  /** `generateCodeChallenge`: SHA-256 of the verifier's UTF-8 octets, encoded the same way. */
  function CodeChallenge(sha256: seq<byte> -> seq<byte>, verifier: string): string {
    Base64.ToUrlSafe(Base64.EncodeStandard(sha256(Utf8.Encode(verifier))))
  }

  /**
   * The verifier made from 32 random octets is their unpadded base64url encoding: 43 characters,
   * all unreserved, as RFC 7636 section 4.1 demands, and it determines the octets.
   */
  lemma CodeVerifierConforms(random: seq<byte>)
    requires |random| == 32
    ensures var v := CodeVerifier(random);
      && v == Base64.EncodeUrl(random)
      && |v| == 43
      && (forall i :: 0 <= i < |v| ==> IsUnreserved(v[i]))
      && Utf8.IsAscii(v)
      && Base64.DecodeUrl(v) == Some(random)
  {
    Base64.UrlSafeOfStandard(random);
    Base64.EncodedLength(random);
    Base64.UrlAlphabetOnly(random);
    Base64.DecodeEncodeUrl(random);
  }

  /**
   * The challenge is BASE64URL(SHA256(ASCII(code_verifier))), the S256 method of RFC 7636
   * section 4.2: for an ASCII verifier the UTF-8 octets are the character codes.
   */
  lemma CodeChallengeIsS256(sha256: seq<byte> -> seq<byte>, verifier: string)
    requires Utf8.IsAscii(verifier)
    ensures CodeChallenge(sha256, verifier) == Base64.EncodeUrl(sha256(Utf8.Encode(verifier)))
    ensures |Utf8.Encode(verifier)| == |verifier|
    ensures forall i :: 0 <= i < |verifier| ==> Utf8.Encode(verifier)[i] as int == verifier[i] as int
    ensures |sha256(Utf8.Encode(verifier))| == 32 ==> |CodeChallenge(sha256, verifier)| == 43
  {
    Base64.UrlSafeOfStandard(sha256(Utf8.Encode(verifier)));
    Base64.EncodedLength(sha256(Utf8.Encode(verifier)));
    Utf8.EncodeAscii(verifier);
  }

  // ---------------------------------------------------------------- requests

  /** The query of the authorization URL, in the order the source lists it. */
  function AuthParams(p: OAuthProvider, state: string, challenge: string): seq<(string, string)> {
    [("client_id", p.clientId), ("redirect_uri", p.redirectUri), ("response_type", "code"),
     ("scope", Join(p.scope, ' ')), ("state", state), ("code_challenge", challenge),
     ("code_challenge_method", "S256")]
  }

  function AuthUrl(p: OAuthProvider, state: string, challenge: string): string {
    p.authUrl + "?" + FormUrlEncoded.Serialize(AuthParams(p, state, challenge))
  }

  /** An outgoing HTTP request as the source builds it; a posted form is kept as its fields. */
  datatype HttpRequest = HttpRequest(verb: string, url: string, headers: seq<(string, string)>, form: seq<(string, string)>)

  /** The body on the wire: the form, serialized as `URLSearchParams.toString()` does (empty for no fields). */
  function Body(r: HttpRequest): string {
    FormUrlEncoded.Serialize(r.form)
  }

  /** The form the code exchange posts, in the order the source lists it. */
  function TokenParams(p: OAuthProvider, code: string, verifier: string): seq<(string, string)> {
    [("client_id", p.clientId), ("client_secret", p.clientSecret), ("code", code),
     ("redirect_uri", p.redirectUri), ("code_verifier", verifier), ("grant_type", "authorization_code")]
  }

  function TokenRequest(p: OAuthProvider, code: string, verifier: string): HttpRequest {
    HttpRequest("POST", p.tokenUrl,
                [("Content-Type", "application/x-www-form-urlencoded"), ("Accept", "application/json")],
                TokenParams(p, code, verifier))
  }

  function UserInfoRequest(p: OAuthProvider, accessToken: string): HttpRequest {
    HttpRequest("GET", p.userInfoUrl, [("Authorization", "Bearer " + accessToken)], [])
  }

  /**
   * The authorization URL is the provider's endpoint, '?', and a query from which a form parser
   * reads back, in order, the client id, callback address, response type "code", the
   * space-joined scopes, the state and the challenge with method "S256".
   */
  lemma AuthUrlQuery(p: OAuthProvider, state: string, challenge: string)
    ensures var url := AuthUrl(p, state, challenge);
      && |url| > |p.authUrl| && url[..|p.authUrl| + 1] == p.authUrl + "?"
      && FormUrlEncoded.Parse(url[|p.authUrl| + 1..]) == FormUrlEncoded.EncodedPairs(AuthParams(p, state, challenge))
  {
    var q := FormUrlEncoded.Serialize(AuthParams(p, state, challenge));
    assert AuthUrl(p, state, challenge) == (p.authUrl + "?") + q;
    FormUrlEncoded.ParseSerialize(AuthParams(p, state, challenge));
  }

  /** The code exchange's body reads back, in order, as the six form fields, the verifier fifth. */
  lemma TokenRequestBody(p: OAuthProvider, code: string, verifier: string)
    ensures FormUrlEncoded.Parse(Body(TokenRequest(p, code, verifier))) == FormUrlEncoded.EncodedPairs(TokenParams(p, code, verifier))
    ensures TokenRequest(p, code, verifier).url == p.tokenUrl && TokenRequest(p, code, verifier).verb == "POST"
  {
    FormUrlEncoded.ParseSerialize(TokenParams(p, code, verifier));
  }

  // ---------------------------------------------------------------- responses

  /** The fields of the token endpoint's JSON the callback uses. */
  datatype TokenResponse = TokenResponse(accessToken: string, refreshToken: Option<string>, expiresIn: int)

  /** The `data` object of Twitter's profile answer. */
  datatype TwitterData = TwitterData(email: Option<string>, name: Option<string>)

  /** The fields of a provider's profile JSON the callback reads; absent fields are None. */
  datatype UserInfo = UserInfo(id: Option<string>, email: Option<string>, name: Option<string>,
                               login: Option<string>, data: Option<TwitterData>)

  /**
   * Why the callback throws: no stored state, the code exchange or the profile request failed
   * (network or JSON), Twitter's answer has no `data` object, or the profile has no `id` to key
   * the session by.
   */
  datatype CallbackError = InvalidState | TokenRequestFailed | UserInfoRequestFailed | MissingTwitterData | MissingUserId

  /**
   * The (email, name) the callback keeps from a profile: Google's fields as they are; GitHub's
   * email, and its name unless that is missing or empty, in which case its login; Twitter's from
   * the `data` object, which must be present; empty strings for any other provider.
   */
  function Profile(providerName: string, info: UserInfo): (r: Result<(Option<string>, Option<string>), CallbackError>)
    ensures r.Err? <==> providerName == "twitter" && info.data.None?
    ensures r.Err? ==> r.error == MissingTwitterData
    ensures providerName == "google" ==> r == Ok((info.email, info.name))
    ensures providerName == "github" ==> r.Ok? && r.value.0 == info.email
    ensures providerName == "github" && info.name.Some? && info.name.value != "" ==> r.value.1 == info.name
    ensures providerName == "github" && (info.name.None? || info.name.value == "") ==> r.value.1 == info.login
    ensures providerName == "twitter" && info.data.Some? ==> r == Ok((info.data.value.email, info.data.value.name))
    ensures providerName !in {"google", "github", "twitter"} ==> r == Ok((Some(""), Some("")))
  {
    if providerName == "google" then Ok((info.email, info.name))
    else if providerName == "github" then
      Ok((info.email, if info.name.Some? && info.name.value != "" then info.name else info.login))
    else if providerName == "twitter" then
      if info.data.None? then Err(MissingTwitterData) else Ok((info.data.value.email, info.data.value.name))
    else Ok((Some(""), Some("")))
  }

  // ---------------------------------------------------------------- state changes

  /** The store after `createAuthRequest`: the state record under ["oauth-states", state], for ten minutes. */
  function AuthRequestState(d: Db, p: OAuthProvider, redirectUrl: string, state: string, random: seq<byte>, now: Time): Db {
    d[OAuthStateKey(state) := Entry(OAuthStateRecord(OAuthState(p.name, CodeVerifier(random), redirectUrl, now)), Some(StateTtlMs))]
  }

  /** The answer of `handleCallback` and the store after it. */
  function Callback(d: Db, p: OAuthProvider, code: string, state: string,
                    tokenFetch: HttpRequest -> Option<TokenResponse>, userFetch: HttpRequest -> Option<UserInfo>,
                    now: Time): (Result<OAuthSession, CallbackError>, Db)
    requires WellFormed(d)
  {
    var sk := OAuthStateKey(state);
    if sk !in d then (Err(InvalidState), d)
    else
      var stored := d[sk].value.state;
      match tokenFetch(TokenRequest(p, code, stored.codeVerifier))
      case None => (Err(TokenRequestFailed), d)
      case Some(tokens) =>
        match userFetch(UserInfoRequest(p, tokens.accessToken))
        case None => (Err(UserInfoRequestFailed), d)
        case Some(info) =>
          match Profile(p.name, info)
          case Err(e) => (Err(e), d)
          case Ok(profile) =>
            if info.id.None? then (Err(MissingUserId), d)
            else
              var s := OAuthSession(info.id.value, p.name, tokens.accessToken, tokens.refreshToken,
                                    now + tokens.expiresIn * 1000, profile.0, profile.1);
              (Ok(s), d[SessionKey(s.userId) := Entry(OAuthSessionRecord(s), Some(SevenDaysMs))] - {sk})
  }

  /**
   * Starting a login stores, for ten minutes, the provider's name, a conforming verifier, the
   * redirect address and the instant, changes no other key and keeps the store invariant.
   */
  lemma AuthRequestEffect(d: Db, p: OAuthProvider, redirectUrl: string, state: string, random: seq<byte>, now: Time)
    requires WellFormed(d) && |random| == 32
    ensures var d' := AuthRequestState(d, p, redirectUrl, state, random, now);
      && OAuthStateKey(state) in d' && d'[OAuthStateKey(state)].expireIn == Some(StateTtlMs)
      && d'[OAuthStateKey(state)].value.OAuthStateRecord?
      && (var st := d'[OAuthStateKey(state)].value.state;
          && st.provider == p.name && st.redirectUrl == redirectUrl && st.createdAt == now
          && |st.codeVerifier| == 43 && (forall i :: 0 <= i < |st.codeVerifier| ==> IsUnreserved(st.codeVerifier[i])))
      && (forall k :: k != OAuthStateKey(state) ==> (k in d <==> k in d') && (k in d ==> d'[k] == d[k]))
      && WellFormed(d')
  {
    CodeVerifierConforms(random);
  }

  /**
   * An unknown state fails with InvalidState; every failure leaves the store as it was (the
   * state can be retried).  A success means the state was stored: the session keeps the
   * provider's name, the tokens of the exchange that sent the stored verifier, an expiry
   * `expires_in` seconds after `now` and the profile's id, email and name; it is stored for
   * seven days under ["sessions", userId], replacing what was there, and the state is deleted.
   */
  lemma CallbackEffect(d: Db, p: OAuthProvider, code: string, state: string,
                       tokenFetch: HttpRequest -> Option<TokenResponse>, userFetch: HttpRequest -> Option<UserInfo>, now: Time)
    requires WellFormed(d)
    ensures var (r, d') := Callback(d, p, code, state, tokenFetch, userFetch, now);
      && (r == Err(InvalidState) <==> OAuthStateKey(state) !in d)
      && (r.Err? ==> d' == d)
      && (r.Ok? ==>
            && OAuthStateKey(state) in d && d[OAuthStateKey(state)].value.OAuthStateRecord?
            && var s := r.value;
               var tok := tokenFetch(TokenRequest(p, code, d[OAuthStateKey(state)].value.state.codeVerifier));
               && tok.Some?
               && s.provider == p.name && s.accessToken == tok.value.accessToken
               && s.refreshToken == tok.value.refreshToken && s.expiresAt == now + tok.value.expiresIn * 1000
               && var info := userFetch(UserInfoRequest(p, tok.value.accessToken));
                  && info.Some? && info.value.id == Some(s.userId)
                  && Profile(p.name, info.value) == Ok((s.email, s.name))
                  && d' == d[SessionKey(s.userId) := Entry(OAuthSessionRecord(s), Some(SevenDaysMs))] - {OAuthStateKey(state)}
                  && OAuthStateKey(state) !in d'
                  && SessionKey(s.userId) in d' && d'[SessionKey(s.userId)] == Entry(OAuthSessionRecord(s), Some(SevenDaysMs)))
      && WellFormed(d')
  {
    KeySpacesDisjoint("", "", "", state);
    var (r, d') := Callback(d, p, code, state, tokenFetch, userFetch, now);
    if r.Ok? {
      KeySpacesDisjoint("", "", r.value.userId, state);
    }
  }

  /** A state is good for one successful callback: replaying it afterwards fails with InvalidState and changes nothing. */
  lemma CallbackReplay(d: Db, p: OAuthProvider, code: string, state: string,
                       tokenFetch: HttpRequest -> Option<TokenResponse>, userFetch: HttpRequest -> Option<UserInfo>, now: Time,
                       p2: OAuthProvider, code2: string,
                       tokenFetch2: HttpRequest -> Option<TokenResponse>, userFetch2: HttpRequest -> Option<UserInfo>, now2: Time)
    requires WellFormed(d)
    requires Callback(d, p, code, state, tokenFetch, userFetch, now).0.Ok?
    ensures var d' := Callback(d, p, code, state, tokenFetch, userFetch, now).1;
      WellFormed(d') && Callback(d', p2, code2, state, tokenFetch2, userFetch2, now2) == (Err(InvalidState), d')
  {
    CallbackEffect(d, p, code, state, tokenFetch, userFetch, now);
  }

  /**
   * The callback asks the token endpoint one thing only, the exchange of `code` with the
   * verifier stored under the state: two token endpoints that answer that request alike give
   * the same outcome.
   */
  lemma CallbackSendsStoredVerifier(d: Db, p: OAuthProvider, code: string, state: string,
                                    tokenFetch: HttpRequest -> Option<TokenResponse>, tokenFetch2: HttpRequest -> Option<TokenResponse>,
                                    userFetch: HttpRequest -> Option<UserInfo>, now: Time)
    requires WellFormed(d) && OAuthStateKey(state) in d
    requires d[OAuthStateKey(state)].value.OAuthStateRecord?
    requires var req := TokenRequest(p, code, d[OAuthStateKey(state)].value.state.codeVerifier);
      tokenFetch(req) == tokenFetch2(req)
    ensures Callback(d, p, code, state, tokenFetch, userFetch, now) == Callback(d, p, code, state, tokenFetch2, userFetch, now)
  {
  }

  /**
   * The PKCE round trip: after a login starts, the callback with the same state passes the state
   * check and posts a verifier whose S256 challenge is exactly the challenge the authorization
   * URL carried, which is what the provider checks (RFC 7636, section 4.6).
   */
  lemma PkceRoundTrip(d: Db, p: OAuthProvider, redirectUrl: string, state: string, random: seq<byte>,
                      sha256: seq<byte> -> seq<byte>, now: Time, code: string,
                      tokenFetch: HttpRequest -> Option<TokenResponse>, userFetch: HttpRequest -> Option<UserInfo>, later: Time)
    requires WellFormed(d) && |random| == 32
    ensures var d1 := AuthRequestState(d, p, redirectUrl, state, random, now);
      && WellFormed(d1)
      && Callback(d1, p, code, state, tokenFetch, userFetch, later).0 != Err(InvalidState)
      && var v := d1[OAuthStateKey(state)].value.state.codeVerifier;
         && TokenParams(p, code, v)[4] == ("code_verifier", v)
         && AuthParams(p, state, CodeChallenge(sha256, CodeVerifier(random)))[5]
              == ("code_challenge", Base64.EncodeUrl(sha256(Utf8.Encode(v))))
  {
    AuthRequestEffect(d, p, redirectUrl, state, random, now);
    var d1 := AuthRequestState(d, p, redirectUrl, state, random, now);
    CallbackEffect(d1, p, code, state, tokenFetch, userFetch, later);
    CodeVerifierConforms(random);
    CodeChallengeIsS256(sha256, CodeVerifier(random));
  }

  class OAuth {
    const kv: Kv<Value>

    constructor (kv: Kv<Value>)
      ensures this.kv == kv
    {
      this.kv := kv;
    }

    /**
     * `createAuthRequest`: stores the state record for ten minutes and returns the provider's
     * authorization URL carrying the state and the S256 challenge of a fresh verifier.  `state`
     * is the fresh UUID, `random` the 32 random octets, `now` the clock.
     */
    method CreateAuthRequest(p: OAuthProvider, redirectUrl: string, state: string, random: seq<byte>,
                             sha256: seq<byte> -> seq<byte>, now: Time) returns (url: string)
      requires WellFormed(kv.data) && |random| == 32
      modifies kv
      ensures url == AuthUrl(p, state, CodeChallenge(sha256, CodeVerifier(random)))
      ensures kv.data == AuthRequestState(old(kv.data), p, redirectUrl, state, random, now)
      ensures WellFormed(kv.data)
    {
      var verifier := CodeVerifier(random);
      var challenge := CodeChallenge(sha256, verifier);
      AuthRequestEffect(kv.data, p, redirectUrl, state, random, now);
      kv.Set(OAuthStateKey(state), OAuthStateRecord(OAuthState(p.name, verifier, redirectUrl, now)), Some(StateTtlMs));
      url := AuthUrl(p, state, challenge);
    }

    /** `handleCallback`: the steps of `Callback`, against the store and the two HTTP endpoints. */
    method HandleCallback(p: OAuthProvider, code: string, state: string,
                          tokenFetch: HttpRequest -> Option<TokenResponse>, userFetch: HttpRequest -> Option<UserInfo>,
                          now: Time) returns (r: Result<OAuthSession, CallbackError>)
      requires WellFormed(kv.data)
      modifies kv
      ensures (r, kv.data) == Callback(old(kv.data), p, code, state, tokenFetch, userFetch, now)
      ensures WellFormed(kv.data)
    {
      CallbackEffect(kv.data, p, code, state, tokenFetch, userFetch, now);
      var stored := kv.Get(OAuthStateKey(state));
      if stored.None? {
        return Err(InvalidState);
      }
      var tokens := tokenFetch(TokenRequest(p, code, stored.value.state.codeVerifier));
      if tokens.None? {
        return Err(TokenRequestFailed);
      }
      var info := userFetch(UserInfoRequest(p, tokens.value.accessToken));
      if info.None? {
        return Err(UserInfoRequestFailed);
      }
      var profile := Profile(p.name, info.value);
      if profile.Err? {
        return Err(profile.error);
      }
      if info.value.id.None? {
        return Err(MissingUserId);
      }
      var s := OAuthSession(info.value.id.value, p.name, tokens.value.accessToken, tokens.value.refreshToken,
                            now + tokens.value.expiresIn * 1000, profile.value.0, profile.value.1);
      kv.Set(SessionKey(s.userId), OAuthSessionRecord(s), Some(SevenDaysMs));
      kv.Delete(OAuthStateKey(state));
      r := Ok(s);
    }
  }
}
