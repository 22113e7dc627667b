/** The compiled `adobeSignInitiate` lambda (`dist/index.js`). It differs from the TypeScript one:
    a static `ADOBE_SIGN_ACCESS_TOKEN` may replace the OAuth triple, and `createAgreement` only
    creates the agreement, answering `IN_PROCESS` without any signing URL. */
module InitiateDist {
  import opened Common
  import opened AdobeSign
  import InitiateSrc

  /** The replies the two requests get, in the order they are sent. */
  datatype Backend = Backend(refresh: RefreshReply, create: ApiReply<Created>)

  /** The configuration check, written as the compiled code tests it. */
  function ConfigOk(env: Env): (ok: bool)
    ensures ok <==> (Truthy(env.accessToken) || HasOAuthTriple(env)) && Truthy(env.libraryDocumentId)
  {
    !((!Truthy(env.accessToken) && (!Truthy(env.clientId) || !Truthy(env.clientSecret) || !Truthy(env.refreshToken)))
      || !Truthy(env.libraryDocumentId))
  }

  /** The reduced `createAgreement`: one request, and a result without `signingUrl`. */
  function CreateAgreement(env: Env, token: string, quoteId: string, signerEmail: string,
                           signerName: Option<string>, b: Backend): (r: (Result<Body>, seq<Call>))
    ensures r.1 == [ApiCall(Post, ApiUrl(env, "/agreements"), token,
                            Some(AgreementBody(env.libraryDocumentId, quoteId, signerEmail, signerName)))]
    ensures r.0.Ok? <==> b.create.ApiOk?
    ensures r.0.Ok? ==> r.0.value == InitiateResult(b.create.value.id, None, Some("IN_PROCESS"))
    ensures r.0.Failed? ==> r.0.error == ApiOutcome(b.create).error
  {
    var create := ApiCall(Post, ApiUrl(env, "/agreements"), token,
                          Some(AgreementBody(env.libraryDocumentId, quoteId, signerEmail, signerName)));
    match ApiOutcome(b.create)
    case Failed(e) => (Failed(e), [create])
    case Ok(created) => (Ok(InitiateResult(created.id, None, Some("IN_PROCESS"))), [create])
  }

  /** The configuration passed and the parsed body passed both 400 checks. */
  predicate Accepted(env: Env, body: Option<string>, parse: string -> Parsed)
  {
    ConfigOk(env) && parse(BodyText(body)).ParsedObject? && InitiateSrc.AcceptablePayload(parse(BodyText(body)).payload)
  }

  /** `handler`. */
  function Handler(env: Env, body: Option<string>, parse: string -> Parsed, b: Backend): (run: Run)
    ensures !ConfigOk(env) ==> run == Run(Rejection(500, ConfigErrorText), [])
    ensures run.response.statusCode in {200, 400, 500}
    ensures run.response.statusCode == 400 <==>
              ConfigOk(env) && parse(BodyText(body)).ParsedObject?
              && !InitiateSrc.AcceptablePayload(parse(BodyText(body)).payload)
    ensures run.response.statusCode == 400 ==> run.calls == []
    ensures run.response.statusCode == 400 ==>
              run.response == Rejection(400,
                if Truthy(parse(BodyText(body)).payload.quoteId) && Truthy(parse(BodyText(body)).payload.signerEmail)
                then InitiateSrc.InvalidEmailText else InitiateSrc.MissingFieldsText)
    ensures ConfigOk(env) && parse(BodyText(body)).ParseThrew? ==>
              run == Run(Failure(InitiateSrc.InitiateFailedText, parse(BodyText(body)).error), [])
    ensures ConfigOk(env) && run.response.statusCode == 500 ==>
              run.response.body.ErrorBody? && run.response.body.error == InitiateSrc.InitiateFailedText
              && run.response.body.details.Some?
    // The `details` of each 500 is the message of what was thrown, step by step.
    ensures ConfigOk(env) && parse(BodyText(body)).ParsedNull? ==>
              run == Run(Failure(InitiateSrc.InitiateFailedText, Error(NullQuoteIdText)), [])
    ensures Accepted(env, body, parse) && !Truthy(env.accessToken)
            && !(b.refresh.RefreshAnswered? && Truthy(b.refresh.accessToken)) ==>
              HasOAuthTriple(env)
              && run == Run(Failure(InitiateSrc.InitiateFailedText, Error(RefreshFailureDetails(env, b.refresh))),
                            [RefreshCall(RefreshUrl(env), RefreshForm(env))])
    ensures Accepted(env, body, parse) && GetAdobeAccessToken(env, b.refresh).0.Token? && !b.create.ApiOk? ==>
              run.response.body == ErrorBody(InitiateSrc.InitiateFailedText, Some(ApiFailureDetails(b.create)))
    // A static token is used as it is: the refresh endpoint is never called.
    ensures Truthy(env.accessToken) ==> forall c | c in run.calls :: !c.RefreshCall?
    // Success never carries a signing URL.
    ensures run.response.statusCode == 200 <==>
              && ConfigOk(env) && parse(BodyText(body)).ParsedObject?
              && InitiateSrc.AcceptablePayload(parse(BodyText(body)).payload)
              && GetAdobeAccessToken(env, b.refresh).0.Token? && b.create.ApiOk?
    ensures run.response.statusCode == 200 ==>
              run.response.headers == JsonCorsHeaders
              && run.response.body == InitiateResult(b.create.value.id, None, Some("IN_PROCESS"))
  {
    if !ConfigOk(env) then Run(Rejection(500, ConfigErrorText), [])
    else
      match parse(BodyText(body))
      case ParseThrew(e) => Run(Failure(InitiateSrc.InitiateFailedText, e), [])
      case ParsedNull => Run(Failure(InitiateSrc.InitiateFailedText, Error(NullQuoteIdText)), [])
      case ParsedObject(p) =>
        if !Truthy(p.quoteId) || !Truthy(p.signerEmail) then Run(Rejection(400, InitiateSrc.MissingFieldsText), [])
        else if !MatchesEmailPattern(p.signerEmail.value) then Run(Rejection(400, InitiateSrc.InvalidEmailText), [])
        else
          var (outcome, tokenCalls) := GetAdobeAccessToken(env, b.refresh);
          match outcome
          case TokenFailed(f) => Run(Failure(InitiateSrc.InitiateFailedText, FailureThrown(f)), tokenCalls)
          case Token(token) =>
            var (result, apiCalls) := CreateAgreement(env, token, p.quoteId.value, p.signerEmail.value, p.signerName, b);
            match result
            case Failed(e) => Run(Failure(InitiateSrc.InitiateFailedText, e), tokenCalls + apiCalls)
            case Ok(r) => Run(Success(r), tokenCalls + apiCalls)
  }

  /** Every configuration the TypeScript lambda accepts, the compiled one accepts too. */
  lemma ConfigWeakerThanSrc(env: Env)
    requires InitiateSrc.ConfigOk(env)
    ensures ConfigOk(env)
  {
  }

  /** The static token replaces the OAuth triple: with it, a configuration lacking the triple passes. */
  lemma StaticTokenSuffices(env: Env)
    requires Truthy(env.accessToken) && Truthy(env.libraryDocumentId)
    ensures ConfigOk(env)
  {
  }

  /** Under a configuration both accept, the two lambdas reject the same bodies with the same 400
      response, in the same order of checks. */
  lemma SameRejectionsAsSrc(env: Env, body: Option<string>, parse: string -> Parsed,
                            srcBackend: InitiateSrc.Backend, distBackend: Backend)
    requires InitiateSrc.ConfigOk(env)
    ensures InitiateSrc.Handler(env, body, parse, srcBackend).response.statusCode == 400
            <==> Handler(env, body, parse, distBackend).response.statusCode == 400
    ensures InitiateSrc.Handler(env, body, parse, srcBackend).response.statusCode == 400
            ==> InitiateSrc.Handler(env, body, parse, srcBackend) == Handler(env, body, parse, distBackend)
  {
  }

  /** The token lookup inside the handler never reports missing OAuth variables: either the static
      token is used or the configuration check has already found the triple. */
  lemma TokenNeverMissesOAuth(env: Env, reply: RefreshReply)
    requires ConfigOk(env)
    ensures GetAdobeAccessToken(env, reply).0 != TokenFailed(MissingOAuth)
  {
  }
}
