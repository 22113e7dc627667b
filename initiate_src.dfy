/** The TypeScript `adobeSignInitiate` lambda: a configuration check, the request-body checks, the
    OAuth refresh, then three REST calls (create the agreement, read its signing URLs, read its
    status). The replies to the requests are inputs; `JSON.parse` is a function parameter. */
module InitiateSrc {
  import opened Common
  import opened AdobeSign

  const MissingFieldsText: string := "Missing required fields: quoteId, signerEmail"
  const InvalidEmailText: string := "Invalid email format"
  const InitiateFailedText: string := "Unable to initiate Adobe Sign agreement"

  /** The replies the four requests get, in the order they are sent. */
  datatype Backend = Backend(
    refresh: RefreshReply,
    create: ApiReply<Created>,
    signingUrls: ApiReply<SigningUrls>,
    agreement: ApiReply<Agreement>)

  /** The four variables the handler checks before anything else. */
  predicate ConfigOk(env: Env)
  {
    HasOAuthTriple(env) && Truthy(env.libraryDocumentId)
  }

  /** A body that passes both 400 checks. */
  predicate AcceptablePayload(p: Payload)
  {
    Truthy(p.quoteId) && Truthy(p.signerEmail) && MatchesEmailPattern(p.signerEmail.value)
  }

  /** The configuration passed and the parsed body passed both 400 checks. */
  predicate Accepted(env: Env, body: Option<string>, parse: string -> Parsed)
  {
    ConfigOk(env) && parse(BodyText(body)).ParsedObject? && AcceptablePayload(parse(BodyText(body)).payload)
  }

  /** The body was accepted and the refresh gave a token. */
  predicate Authorized(env: Env, body: Option<string>, parse: string -> Parsed, b: Backend)
  {
    Accepted(env, body, parse) && b.refresh.RefreshAnswered? && Truthy(b.refresh.accessToken)
  }

  function AgreementPath(id: Option<string>): string
  {
    "/agreements/" + JsText(id)
  }

  /** `createAgreement`: create the agreement, read its first signing URL (an empty one throws), then
      read its status. The requests stop at the first failure. */
  function CreateAgreement(env: Env, token: string, quoteId: string, signerEmail: string,
                           signerName: Option<string>, b: Backend): (r: (Result<Body>, seq<Call>))
    ensures 1 <= |r.1| <= 3
    ensures r.1[0] == ApiCall(Post, ApiUrl(env, "/agreements"), token,
                              Some(AgreementBody(env.libraryDocumentId, quoteId, signerEmail, signerName)))
    ensures r.0.Ok? <==> b.create.ApiOk? && b.signingUrls.ApiOk?
                         && ExtractSigningUrl(b.signingUrls.value) != "" && b.agreement.ApiOk?
    ensures r.0.Ok? ==> |r.1| == 3 && r.0.value == InitiateResult(b.create.value.id,
                          Some(ExtractSigningUrl(b.signingUrls.value)), b.agreement.value.status)
    ensures b.create.ApiOk? && b.signingUrls.ApiOk? && ExtractSigningUrl(b.signingUrls.value) == "" ==>
              r.0 == Failed(Error(NoSigningUrlText)) && |r.1| == 2
    ensures b.create.ApiOk? ==> |r.1| >= 2 && r.1[1] == ApiCall(Get, ApiUrl(env, AgreementPath(b.create.value.id) + "/signingUrls"), token, None)
    ensures !b.create.ApiOk? ==> r == (Failed(ApiOutcome(b.create).error), r.1) && |r.1| == 1
  {
    var create := ApiCall(Post, ApiUrl(env, "/agreements"), token,
                          Some(AgreementBody(env.libraryDocumentId, quoteId, signerEmail, signerName)));
    match ApiOutcome(b.create)
    case Failed(e) => (Failed(e), [create])
    case Ok(created) =>
      var path := AgreementPath(created.id);
      var urls := ApiCall(Get, ApiUrl(env, path + "/signingUrls"), token, None);
      match ApiOutcome(b.signingUrls)
      case Failed(e) => (Failed(e), [create, urls])
      case Ok(reply) =>
        var signingUrl := ExtractSigningUrl(reply);
        if signingUrl == "" then (Failed(Error(NoSigningUrlText)), [create, urls])
        else
          var status := ApiCall(Get, ApiUrl(env, path), token, None);
          match ApiOutcome(b.agreement)
          case Failed(e) => (Failed(e), [create, urls, status])
          case Ok(a) => (Ok(InitiateResult(created.id, Some(signingUrl), a.status)), [create, urls, status])
  }

  /** `handler`. */
  function Handler(env: Env, body: Option<string>, parse: string -> Parsed, b: Backend): (run: Run)
    // The configuration is checked first; nothing is read or sent when it fails.
    ensures !ConfigOk(env) ==> run == Run(Rejection(500, ConfigErrorText), [])
    ensures run.response.statusCode in {200, 400, 500}
    // The two 400s: decided on the parsed body alone, in this order, before any request.
    ensures run.response.statusCode == 400 <==>
              ConfigOk(env) && parse(BodyText(body)).ParsedObject? && !AcceptablePayload(parse(BodyText(body)).payload)
    ensures run.response.statusCode == 400 ==> run.calls == [] && run.response.headers == []
    ensures run.response.statusCode == 400 ==>
              run.response.body == ErrorBody(
                if Truthy(parse(BodyText(body)).payload.quoteId) && Truthy(parse(BodyText(body)).payload.signerEmail)
                then InvalidEmailText else MissingFieldsText, None)
    // Malformed JSON lands in the same catch as a failed request: 500 with details, never 400.
    ensures ConfigOk(env) && parse(BodyText(body)).ParseThrew? ==>
              run == Run(Failure(InitiateFailedText, parse(BodyText(body)).error), [])
    ensures ConfigOk(env) && run.response.statusCode == 500 ==>
              run.response.body.ErrorBody? && run.response.body.error == InitiateFailedText
              && run.response.body.details.Some?
    // The `details` of each 500 is the message of what was thrown, step by step.
    ensures ConfigOk(env) && parse(BodyText(body)).ParsedNull? ==>
              run == Run(Failure(InitiateFailedText, Error(NullQuoteIdText)), [])
    ensures Accepted(env, body, parse) && !(b.refresh.RefreshAnswered? && Truthy(b.refresh.accessToken)) ==>
              run == Run(Failure(InitiateFailedText, Error(RefreshFailureDetails(env, b.refresh))),
                         [RefreshCall(RefreshUrl(env), RefreshForm(env))])
    ensures Authorized(env, body, parse, b) && !b.create.ApiOk? ==>
              run.response.body == ErrorBody(InitiateFailedText, Some(ApiFailureDetails(b.create)))
    ensures Authorized(env, body, parse, b) && b.create.ApiOk? && !b.signingUrls.ApiOk? ==>
              run.response.body == ErrorBody(InitiateFailedText, Some(ApiFailureDetails(b.signingUrls)))
    ensures Authorized(env, body, parse, b) && b.create.ApiOk? && b.signingUrls.ApiOk?
            && ExtractSigningUrl(b.signingUrls.value) == "" ==>
              run.response.body == ErrorBody(InitiateFailedText, Some(NoSigningUrlText))
    ensures Authorized(env, body, parse, b) && b.create.ApiOk? && b.signingUrls.ApiOk?
            && ExtractSigningUrl(b.signingUrls.value) != "" && !b.agreement.ApiOk? ==>
              run.response.body == ErrorBody(InitiateFailedText, Some(ApiFailureDetails(b.agreement)))
    // Success: every step answered, the signing URL is non-empty, and the JSON/CORS headers are set.
    ensures run.response.statusCode == 200 <==>
              && ConfigOk(env) && parse(BodyText(body)).ParsedObject? && AcceptablePayload(parse(BodyText(body)).payload)
              && b.refresh.RefreshAnswered? && Truthy(b.refresh.accessToken)
              && b.create.ApiOk? && b.signingUrls.ApiOk? && ExtractSigningUrl(b.signingUrls.value) != ""
              && b.agreement.ApiOk?
    ensures run.response.statusCode == 200 ==>
              && run.response.headers == JsonCorsHeaders
              && run.response.body == InitiateResult(b.create.value.id, Some(ExtractSigningUrl(b.signingUrls.value)),
                                                     b.agreement.value.status)
              && |run.calls| == 4 && run.calls[0].RefreshCall?
              && run.calls[1] == ApiCall(Post, ApiUrl(env, "/agreements"), b.refresh.accessToken.value, Some(AgreementBody(env.libraryDocumentId, parse(BodyText(body)).payload.quoteId.value,
                                                         parse(BodyText(body)).payload.signerEmail.value,
                                                         parse(BodyText(body)).payload.signerName)))
  {
    if !ConfigOk(env) then Run(Rejection(500, ConfigErrorText), [])
    else
      match parse(BodyText(body))
      case ParseThrew(e) => Run(Failure(InitiateFailedText, e), [])
      case ParsedNull => Run(Failure(InitiateFailedText, Error(NullQuoteIdText)), [])
      case ParsedObject(p) =>
        if !Truthy(p.quoteId) || !Truthy(p.signerEmail) then Run(Rejection(400, MissingFieldsText), [])
        else if !MatchesEmailPattern(p.signerEmail.value) then Run(Rejection(400, InvalidEmailText), [])
        else
          var (outcome, refreshCalls) := RefreshAccessToken(env, b.refresh);
          match outcome
          case TokenFailed(f) => Run(Failure(InitiateFailedText, FailureThrown(f)), refreshCalls)
          case Token(token) =>
            var (result, apiCalls) := CreateAgreement(env, token, p.quoteId.value, p.signerEmail.value, p.signerName, b);
            match result
            case Failed(e) => Run(Failure(InitiateFailedText, e), refreshCalls + apiCalls)
            case Ok(r) => Run(Success(r), refreshCalls + apiCalls)
  }

  /** The refresh inside the handler always finds the OAuth triple set: the handler's own
      configuration check comes first, so "Missing OAuth environment variables" is never thrown. */
  lemma RefreshNeverMissesOAuth(env: Env, reply: RefreshReply)
    requires ConfigOk(env)
    ensures RefreshAccessToken(env, reply).0 != TokenFailed(MissingOAuth)
    ensures |RefreshAccessToken(env, reply).1| == 1
  {
  }
}
