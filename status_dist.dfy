/** The compiled `adobeSignStatus` lambda (`dist/index.js`): the same checks and projection as the
    TypeScript one, except that a static `ADOBE_SIGN_ACCESS_TOKEN` may replace the OAuth triple. */
module StatusDist {
  import opened Common
  import opened AdobeSign
  import StatusSrc

  /** The configuration check, written as the compiled code tests it. */
  function ConfigOk(env: Env): (ok: bool)
    ensures ok <==> Truthy(env.accessToken) || HasOAuthTriple(env)
  {
    !(!Truthy(env.accessToken) && (!Truthy(env.clientId) || !Truthy(env.clientSecret) || !Truthy(env.refreshToken)))
  }

  /** The configuration passed and the id passed both 400 checks. */
  predicate IdAccepted(env: Env, query: Option<map<string, string>>)
  {
    ConfigOk(env) && Truthy(StatusSrc.AgreementIdParam(query))
    && !StatusSrc.MalformedId(StatusSrc.AgreementIdParam(query).value)
  }

  /** `handler`. */
  function Handler(env: Env, query: Option<map<string, string>>, b: StatusSrc.Backend): (run: Run)
    ensures !ConfigOk(env) ==> run == Run(Rejection(500, ConfigErrorText), [])
    ensures run.response.statusCode in {200, 400, 500}
    ensures run.response.statusCode == 400 ==> run.calls == [] && run.response.headers == []
    ensures run.response == Rejection(400, StatusSrc.MissingIdText) <==>
              ConfigOk(env) && !Truthy(StatusSrc.AgreementIdParam(query))
    ensures run.response == Rejection(400, StatusSrc.InvalidIdText) <==>
              ConfigOk(env) && Truthy(StatusSrc.AgreementIdParam(query))
              && Utf16Length(StatusSrc.AgreementIdParam(query).value) > 128
    ensures run.response.statusCode == 400 ==>
              run.response == Rejection(400, StatusSrc.MissingIdText) || run.response == Rejection(400, StatusSrc.InvalidIdText)
    ensures ConfigOk(env) && run.response.statusCode == 500 ==>
              run.response.body.ErrorBody? && run.response.body.error == StatusSrc.StatusFailedText
              && run.response.body.details.Some?
    // The `details` of each 500 is the message of what was thrown.
    ensures IdAccepted(env, query) && !Truthy(env.accessToken)
            && !(b.refresh.RefreshAnswered? && Truthy(b.refresh.accessToken)) ==>
              HasOAuthTriple(env)
              && run == Run(Failure(StatusSrc.StatusFailedText, Error(RefreshFailureDetails(env, b.refresh))),
                            [RefreshCall(RefreshUrl(env), RefreshForm(env))])
    ensures IdAccepted(env, query) && GetAdobeAccessToken(env, b.refresh).0.Token? && !b.agreement.ApiOk? ==>
              run.response.body == ErrorBody(StatusSrc.StatusFailedText, Some(ApiFailureDetails(b.agreement)))
    // A static token is used as it is: the refresh endpoint is never called.
    ensures Truthy(env.accessToken) ==> forall c | c in run.calls :: !c.RefreshCall?
    ensures run.response.statusCode == 200 <==>
              && ConfigOk(env) && Truthy(StatusSrc.AgreementIdParam(query))
              && Utf16Length(StatusSrc.AgreementIdParam(query).value) <= 128
              && GetAdobeAccessToken(env, b.refresh).0.Token? && b.agreement.ApiOk?
    ensures run.response.statusCode == 200 ==> run.response == Success(StatusSrc.Project(b.agreement.value))
  {
    if !ConfigOk(env) then Run(Rejection(500, ConfigErrorText), [])
    else
      var id := StatusSrc.AgreementIdParam(query);
      if !Truthy(id) then Run(Rejection(400, StatusSrc.MissingIdText), [])
      else if StatusSrc.MalformedId(id.value) then Run(Rejection(400, StatusSrc.InvalidIdText), [])
      else
        var (outcome, tokenCalls) := GetAdobeAccessToken(env, b.refresh);
        match outcome
        case TokenFailed(f) => Run(Failure(StatusSrc.StatusFailedText, FailureThrown(f)), tokenCalls)
        case Token(token) =>
          var read := ApiCall(Get, ApiUrl(env, "/agreements/" + id.value), token, None);
          match ApiOutcome(b.agreement)
          case Failed(e) => Run(Failure(StatusSrc.StatusFailedText, e), tokenCalls + [read])
          case Ok(a) => Run(Success(StatusSrc.Project(a)), tokenCalls + [read])
  }

  /** With a static token the check passes even when the whole OAuth triple is missing, where the
      TypeScript lambda answers with its configuration error. */
  lemma StaticTokenSuffices(env: Env, query: Option<map<string, string>>, b: StatusSrc.Backend)
    requires Truthy(env.accessToken) && env.clientId.None? && env.clientSecret.None? && env.refreshToken.None?
    ensures ConfigOk(env)
    ensures Handler(env, query, b).response != Rejection(500, ConfigErrorText)
    ensures StatusSrc.Handler(env, query, b).response == Rejection(500, ConfigErrorText)
  {
  }

  /** Under a configuration both accept, the two lambdas reject the same queries with the same 400
      response, in the same order of checks; with the same backend and no static token they agree
      on everything. */
  lemma SameAsSrc(env: Env, query: Option<map<string, string>>, b: StatusSrc.Backend)
    requires HasOAuthTriple(env)
    ensures StatusSrc.Handler(env, query, b).response.statusCode == 400
            <==> Handler(env, query, b).response.statusCode == 400
    ensures StatusSrc.Handler(env, query, b).response.statusCode == 400
            ==> StatusSrc.Handler(env, query, b) == Handler(env, query, b)
    ensures !Truthy(env.accessToken) ==> StatusSrc.Handler(env, query, b) == Handler(env, query, b)
  {
  }
}
