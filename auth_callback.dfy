/** The OAuth redirect endpoint `app/auth/callback/page.tsx`: an authorization error sent back by
    the hosted UI (section 4.1.2.1 of RFC 6749) goes to the login page; an authorization code
    (section 4.1.2) is exchanged for tokens, which are stored before going home. `encodeURIComponent`
    is a function parameter. */
module AuthCallback {
  import opened Common
  import opened Cognito
  import AuthContext

  const FailedExchangeError: string := "auth_failed"
  const FailedExchangeFallback: string := "Token exchange failed"

  /** The `code`, `error` and `error_description` query parameters (`null` when absent). */
  datatype CallbackQuery = CallbackQuery(code: Option<string>, error: Option<string>, errorDescription: Option<string>)

  /** Where the page sends the browser: home, the login page, the login page with the error the
      hosted UI sent back, or the login page after a failed exchange. */
  datatype Route = Home | Login | LoginWithError(error: string, description: Option<string>)
                 | LoginAfterFailedExchange(message: string)

  /** What the page does with a query: redirect at once, or exchange a code. */
  datatype Decision = Redirect(route: Route) | Exchange(code: string)

  /** The redirect decision. An error wins over a code; without either the user goes to login. */
  function Decide(q: CallbackQuery): (d: Decision)
    ensures Truthy(q.error) ==> d == Redirect(LoginWithError(q.error.value,
                                        if Truthy(q.errorDescription) then q.errorDescription else None))
    ensures !Truthy(q.error) && !Truthy(q.code) ==> d == Redirect(Login)
    ensures d.Exchange? <==> !Truthy(q.error) && Truthy(q.code)
    ensures d.Exchange? ==> d.code == q.code.value && d.code != ""
  {
    if Truthy(q.error) then
      Redirect(LoginWithError(q.error.value, if Truthy(q.errorDescription) then q.errorDescription else None))
    else if !Truthy(q.code) then Redirect(Login)
    else Exchange(q.code.value)
  }

  /** The path pushed to the router. The description is appended only when there is one. */
  function RoutePath(r: Route, encode: string -> string): (path: string)
    ensures r == Home ==> path == "/home"
    ensures r == Login ==> path == "/login"
    ensures r.LoginWithError? && r.description.None? ==> path == "/login?error=" + encode(r.error)
    ensures r.LoginWithError? && r.description.Some? ==>
              path == "/login?error=" + encode(r.error) + "&error_description=" + encode(r.description.value)
    // The failed-exchange error is written literally; only the message is encoded.
    ensures r.LoginAfterFailedExchange? ==>
              path == "/login?error=" + FailedExchangeError + "&error_description=" + encode(r.message)
  {
    match r
    case Home => "/home"
    case Login => "/login"
    case LoginWithError(e, d) =>
      "/login?error=" + encode(e) + (if d.Some? then "&error_description=" + encode(d.value) else "")
    case LoginAfterFailedExchange(d) =>
      "/login?error=" + FailedExchangeError + "&error_description=" + encode(d)
  }

  /** Where a failed exchange leads: `auth_failed`, with the thrown message as the description. */
  function FailureRoute(error: Thrown): (r: Route)
    ensures r.LoginAfterFailedExchange?
    ensures error.Error? ==> r.message == error.message
    ensures error.NonError? ==> r.message == FailedExchangeFallback
  {
    LoginAfterFailedExchange(MessageOr(error, FailedExchangeFallback))
  }

  /** The items a successful exchange leaves in `localStorage`. `setItem` turns a missing access
      token into the text "undefined". */
  function StoreTokens(items: map<string, string>, u: AuthUser): (stored: map<string, string>)
    ensures stored.Keys == items.Keys + TokenKeys
    ensures stored[IdTokenKey] == u.idToken && stored[RefreshTokenKey] == u.refreshToken
    ensures stored[AccessTokenKey] == (if u.accessToken.Some? then u.accessToken.value else "undefined")
    ensures forall k | k in items && k !in TokenKeys :: stored[k] == items[k]
  {
    items[IdTokenKey := u.idToken][AccessTokenKey := JsText(u.accessToken)][RefreshTokenKey := u.refreshToken]
  }

  /** `handleCallback`: decide; on a code, exchange it; on success set the user, store exactly the
      three tokens and go home; on failure go to login with the message and store nothing. */
  method HandleCallback(q: CallbackQuery, env: CognitoEnv, reply: TokenReply, decoded: DecodeResult,
                        session: Storage, provider: AuthContext.AuthProvider)
    returns (route: Route, request: Option<EndpointRequest>)
    requires session != provider.local
    modifies session, provider, provider.local
    ensures provider.isLoading == old(provider.isLoading)
    ensures Decide(q).Redirect? ==>
              && route == Decide(q).route && request == None
              && provider.user == old(provider.user) && provider.local.items == old(provider.local.items)
              && session.items == old(session.items)
    ensures Decide(q).Exchange? ==>
              var result := ExchangeResult(reply, decoded);
              && request == Some(EndpointRequest(HostedUIBase(env) + "/oauth2/token",
                                                 TokenParams(env, Decide(q).code, old(session.GetItem(PkceVerifierKey)))))
              && session.items == (if reply.Replied? && reply.ok then old(session.items) - {PkceVerifierKey}
                                   else old(session.items))
              && (result.Ok? ==> route == Home && provider.user == Some(result.value)
                                 && provider.local.items == StoreTokens(old(provider.local.items), result.value))
              && (result.Failed? ==> route == FailureRoute(result.error) && provider.user == old(provider.user)
                                     && provider.local.items == old(provider.local.items))
  {
    request := None;
    match Decide(q) {
      case Redirect(r) =>
        route := r;
      case Exchange(code) =>
        var sent, result := ExchangeCodeForToken(env, code, reply, decoded, session);
        request := Some(sent);
        match result {
          case Ok(u) =>
            provider.SetUser(Some(u));
            provider.local.SetItem(IdTokenKey, u.idToken);
            provider.local.SetItem(AccessTokenKey, JsText(u.accessToken));
            provider.local.SetItem(RefreshTokenKey, u.refreshToken);
            route := Home;
          case Failed(e) =>
            route := FailureRoute(e);
        }
    }
  }

  /** The tokens a successful callback stores give back the same user on the next stored-token
      check, as long as the ID token is unexpired and the reply carried an access token. */
  lemma StoredTokensRestoreUser(items: map<string, string>, u: AuthUser, c: Claims, nowMs: nat)
    requires u == UserFromClaims(c, u.idToken, u.accessToken, Some(u.refreshToken))
    requires u.idToken != "" && Truthy(u.accessToken) && Unexpired(c.exp, nowMs)
    ensures AuthContext.CheckItems(StoreTokens(items, u), Decoded(c), nowMs) == Session(u)
  {
    var stored := StoreTokens(items, u);
    assert stored[IdTokenKey] == u.idToken;
    assert stored[AccessTokenKey] == u.accessToken.value;
    assert stored[RefreshTokenKey] == u.refreshToken;
  }
}
