/** What the two Adobe Sign lambdas (`adobeSignInitiate`, `adobeSignStatus`, in their TypeScript
    and compiled forms) have in common: the environment, the OAuth refresh, the REST call wrapper and
    their error texts, the e-mail check, the agreement request body, the signing-URL extraction and
    the API Gateway responses. Every `fetch` is replaced by its reply, given as an input, and every
    handler reports the requests it made. */
module AdobeSign {
  import opened Common

  // ---------------------------------------------------------------------------
  // Environment.

  /** The `ADOBE_SIGN_*` variables. `accessToken` is read only by the compiled lambdas. */
  datatype Env = Env(
    baseUri: Option<string>,
    accessToken: Option<string>,
    clientId: Option<string>,
    clientSecret: Option<string>,
    refreshToken: Option<string>,
    libraryDocumentId: Option<string>)

  const DefaultBaseUri: string := "https://api.na1.adobesign.com"

  function BaseUri(env: Env): (uri: string)
    ensures Truthy(env.baseUri) ==> uri == env.baseUri.value
    ensures !Truthy(env.baseUri) ==> uri == DefaultBaseUri
    ensures uri != ""
  {
    OrElse(env.baseUri, DefaultBaseUri)
  }

  /** Client id, client secret and refresh token are all set (non-empty). */
  predicate HasOAuthTriple(env: Env)
  {
    Truthy(env.clientId) && Truthy(env.clientSecret) && Truthy(env.refreshToken)
  }

  // ---------------------------------------------------------------------------
  // Requests a lambda sends.

  datatype HttpMethod = Get | Post

  /** One participant set of an agreement: its members' e-mails, role, order and name. */
  datatype ParticipantSet = ParticipantSet(memberEmails: seq<string>, role: string, order: nat, name: string)

  /** The JSON body of `POST /agreements`. */
  datatype AgreementRequest = AgreementRequest(
    name: string,
    libraryDocumentId: Option<string>,
    participantSets: seq<ParticipantSet>,
    signatureType: string,
    state: string)

  /** A request to the OAuth refresh endpoint, or to the REST API with a bearer token. */
  datatype Call =
    | RefreshCall(url: string, form: seq<(string, string)>)
    | ApiCall(verb: HttpMethod, url: string, bearer: string, body: Option<AgreementRequest>)

  function RefreshUrl(env: Env): string
  {
    BaseUri(env) + "/oauth/v2/refresh"
  }

  /** The form of the refresh request, in the order `URLSearchParams` sends it. */
  function RefreshForm(env: Env): seq<(string, string)>
    requires HasOAuthTriple(env)
  {
    [ ("grant_type", "refresh_token"),
      ("client_id", env.clientId.value),
      ("client_secret", env.clientSecret.value),
      ("refresh_token", env.refreshToken.value) ]
  }

  /** `${ADOBE_SIGN_BASE_URI}/api/rest/v6${path}` */
  function ApiUrl(env: Env, path: string): string
  {
    BaseUri(env) + "/api/rest/v6" + path
  }

  // ---------------------------------------------------------------------------
  // The OAuth refresh (`getAccessTokenFromRefreshToken`).

  /** What the refresh endpoint answered: a non-ok status and its text, an ok JSON body with or
      without `access_token`, or a rejected `fetch` / `response.json()`. */
  datatype RefreshReply =
    | RefreshRejected(status: nat, text: string)
    | RefreshAnswered(accessToken: Option<string>)
    | RefreshUnreachable(error: Thrown)

  /** Why no token was obtained. */
  datatype TokenFailure =
    | MissingOAuth
    | RefreshFailed(status: nat, text: string)
    | NoAccessToken
    | RefreshError(error: Thrown)

  datatype TokenOutcome = Token(value: string) | TokenFailed(failure: TokenFailure)

  const MissingOAuthText: string := "Missing OAuth environment variables for Adobe Sign"
  const NoAccessTokenText: string := "Adobe OAuth refresh did not return an access_token"
  const RefreshFailedPrefix: string := "Adobe OAuth refresh failed ("
  const ApiErrorPrefix: string := "Adobe Sign API error ("

  /** `${prefix}${status}): ${text}` */
  function StatusText(prefix: string, status: nat, text: string): string
  {
    prefix + NatToString(status) + "): " + text
  }

  /** The value each refresh failure throws. */
  function FailureThrown(f: TokenFailure): (t: Thrown)
    ensures f.RefreshError? ==> t == f.error
    ensures f.MissingOAuth? ==> t == Error(MissingOAuthText)
    ensures f.NoAccessToken? ==> t == Error(NoAccessTokenText)
    ensures f.RefreshFailed? ==> t == Error(StatusText(RefreshFailedPrefix, f.status, f.text))
  {
    match f
    case MissingOAuth => Error(MissingOAuthText)
    case RefreshFailed(s, text) => Error(StatusText(RefreshFailedPrefix, s, text))
    case NoAccessToken => Error(NoAccessTokenText)
    case RefreshError(e) => e
  }

  /** The refresh: refused without the OAuth triple (and then no request is sent); otherwise one
      POST whose reply decides. A token is only ever a non-empty `access_token`. */
  function RefreshAccessToken(env: Env, reply: RefreshReply): (r: (TokenOutcome, seq<Call>))
    ensures r.1 == (if HasOAuthTriple(env) then [RefreshCall(RefreshUrl(env), RefreshForm(env))] else [])
    ensures r.0.TokenFailed? && r.0.failure.MissingOAuth? <==> !HasOAuthTriple(env)
    ensures r.0.Token? <==> HasOAuthTriple(env) && reply.RefreshAnswered? && Truthy(reply.accessToken)
    ensures r.0.Token? ==> r.0.value == reply.accessToken.value && r.0.value != ""
    ensures HasOAuthTriple(env) && reply.RefreshRejected? ==>
              r.0 == TokenFailed(RefreshFailed(reply.status, reply.text))
    ensures HasOAuthTriple(env) && reply.RefreshAnswered? && !Truthy(reply.accessToken) ==>
              r.0 == TokenFailed(NoAccessToken)
    ensures HasOAuthTriple(env) && reply.RefreshUnreachable? ==> r.0 == TokenFailed(RefreshError(reply.error))
  {
    if !HasOAuthTriple(env) then (TokenFailed(MissingOAuth), [])
    else
      var calls := [RefreshCall(RefreshUrl(env), RefreshForm(env))];
      match reply
      case RefreshRejected(s, text) => (TokenFailed(RefreshFailed(s, text)), calls)
      case RefreshUnreachable(e) => (TokenFailed(RefreshError(e)), calls)
      case RefreshAnswered(t) =>
        if Truthy(t) then (Token(t.value), calls) else (TokenFailed(NoAccessToken), calls)
  }

  /** The `details` a handler reports when the refresh, run with the OAuth triple set, gives no
      token: the message of what the refresh threw. */
  function RefreshFailureDetails(env: Env, reply: RefreshReply): (text: string)
    requires HasOAuthTriple(env) && !(reply.RefreshAnswered? && Truthy(reply.accessToken))
    ensures reply.RefreshRejected? ==> text == StatusText(RefreshFailedPrefix, reply.status, reply.text)
    ensures reply.RefreshAnswered? ==> text == NoAccessTokenText
    ensures reply.RefreshUnreachable? ==> text == MessageOr(reply.error, UnknownErrorText)
  {
    MessageOr(FailureThrown(RefreshAccessToken(env, reply).0.failure), UnknownErrorText)
  }

  /** The compiled lambdas' `getAdobeAccessToken`: a set static token wins, with no request. */
  function GetAdobeAccessToken(env: Env, reply: RefreshReply): (r: (TokenOutcome, seq<Call>))
    ensures Truthy(env.accessToken) ==> r == (Token(env.accessToken.value), [])
    ensures !Truthy(env.accessToken) ==> r == RefreshAccessToken(env, reply)
    ensures r.0.Token? ==> r.0.value != ""
  {
    if Truthy(env.accessToken) then (Token(env.accessToken.value), []) else RefreshAccessToken(env, reply)
  }

  // ---------------------------------------------------------------------------
  // The REST call wrapper (`callAdobeSignAPI`).

  /** A REST reply: an ok JSON body, a non-ok status and its text, or a rejected `fetch` / `json()`. */
  datatype ApiReply<T> = ApiOk(value: T) | ApiRejected(status: nat, text: string) | ApiThrew(error: Thrown)

  /** What `callAdobeSignAPI` resolves to or throws. */
  function ApiOutcome<T>(reply: ApiReply<T>): (r: Result<T>)
    ensures r.Ok? <==> reply.ApiOk?
    ensures r.Ok? ==> r.value == reply.value
    ensures reply.ApiRejected? ==> r == Failed(Error(StatusText(ApiErrorPrefix, reply.status, reply.text)))
    ensures reply.ApiThrew? ==> r == Failed(reply.error)
  {
    match reply
    case ApiOk(v) => Ok(v)
    case ApiRejected(s, text) => Failed(Error(StatusText(ApiErrorPrefix, s, text)))
    case ApiThrew(e) => Failed(e)
  }

  /** The `details` a handler reports when a REST call fails: the message of what the call threw. */
  function ApiFailureDetails<T>(reply: ApiReply<T>): (text: string)
    requires !reply.ApiOk?
    ensures reply.ApiRejected? ==> text == StatusText(ApiErrorPrefix, reply.status, reply.text)
    ensures reply.ApiThrew? ==> text == MessageOr(reply.error, UnknownErrorText)
  {
    MessageOr(ApiOutcome(reply).error, UnknownErrorText)
  }

  /** The `details` of a refused refresh or a refused REST call identify the failure: the step that
      failed (refresh or REST call), the status and the reply text can all be read back. */
  lemma FailureTextIdentifiesStep(p1: string, s1: nat, t1: string, p2: string, s2: nat, t2: string)
    requires p1 == RefreshFailedPrefix || p1 == ApiErrorPrefix
    requires p2 == RefreshFailedPrefix || p2 == ApiErrorPrefix
    requires StatusText(p1, s1, t1) == StatusText(p2, s2, t2)
    ensures p1 == p2 && s1 == s2 && t1 == t2
  {
    // The two prefixes already differ at their seventh character.
    assert StatusText(p1, s1, t1)[6] == p1[6] && StatusText(p2, s2, t2)[6] == p2[6];
    assert p1 == p2;
    StatusTextInjective(p1, s1, t1, s2, t2);
  }

  /** The status and the reply text can be read back from the thrown message: two different
      failures never produce the same text. */
  lemma StatusTextInjective(prefix: string, s1: nat, t1: string, s2: nat, t2: string)
    requires StatusText(prefix, s1, t1) == StatusText(prefix, s2, t2)
    ensures s1 == s2 && t1 == t2
  {
    var d1, d2 := NatToString(s1), NatToString(s2);
    var m1, m2 := StatusText(prefix, s1, t1), StatusText(prefix, s2, t2);
    var p := |prefix|;
    assert m1 == prefix + d1 + "): " + t1;
    assert m2 == prefix + d2 + "): " + t2;
    assert m1[p + |d1|] == ')' && m2[p + |d2|] == ')';
    assert forall i | 0 <= i < |d1| :: m1[p + i] == d1[i] && IsDigit(d1[i]);
    assert forall i | 0 <= i < |d2| :: m2[p + i] == d2[i] && IsDigit(d2[i]);
    assert |d1| == |d2|;
    assert d1 == m1[p..p + |d1|] == m2[p..p + |d2|] == d2;
    NatToStringRoundTrip(s1);
    NatToStringRoundTrip(s2);
    assert t1 == m1[p + |d1| + 3..] == m2[p + |d2| + 3..] == t2;
  }

  // ---------------------------------------------------------------------------
  // The e-mail check `/^[^\s@]+@[^\s@]+\.[^\s@]+$/`.

  /** `\s` of ECMAScript regular expressions: the white space and line terminator characters. */
  predicate IsRegexSpace(c: char)
  {
    var n := c as int;
    n == 0x09 || n == 0x0A || n == 0x0B || n == 0x0C || n == 0x0D || n == 0x20 || n == 0xA0
    || n == 0x1680 || (0x2000 <= n <= 0x200A) || n == 0x2028 || n == 0x2029 || n == 0x202F
    || n == 0x205F || n == 0x3000 || n == 0xFEFF
  }

  /** `[^\s@]` */
  predicate IsPartChar(c: char)
  {
    !IsRegexSpace(c) && c != '@'
  }

  /** The regular expression matches: an `@` at `at` and a `.` at `dot` split the string into three
      non-empty runs of `[^\s@]` (a run may itself hold dots). */
  predicate MatchesEmailPattern(s: string)
  {
    exists at, dot | 0 < at < |s| && at + 1 < dot < |s| - 1 ::
      s[at] == '@' && s[dot] == '.' && forall i | 0 <= i < |s| && i != at :: IsPartChar(s[i])
  }

  /** `s.indexOf(c)` with "not found" as `|s|`. */
  function FirstIndexOf(s: string, c: char): (k: nat)
    ensures k <= |s| && c !in s[..k]
    ensures k < |s| ==> s[k] == c
  {
    if s == [] then 0
    else if s[0] == c then 0
    else
      var k := 1 + FirstIndexOf(s[1..], c);
      assert s[..k] == [s[0]] + s[1..][..k - 1];
      k
  }

  /** The same test stated on the parts: no white space, exactly one `@` with a non-empty local part
      before it, and a domain after it holding a `.` that is neither its first nor last character. */
  predicate EmailShape(s: string)
  {
    var k := FirstIndexOf(s, '@');
    && (forall i | 0 <= i < |s| :: !IsRegexSpace(s[i]))
    && 0 < k < |s|
    && '@' !in s[k + 1..]
    && HasInnerDot(s[k + 1..])
  }

  /** The domain holds a `.` that is neither its first nor its last character. */
  predicate HasInnerDot(d: string)
  {
    exists j | 0 < j < |d| - 1 :: d[j] == '.'
  }

  lemma EmailPatternMeansShape(s: string)
    ensures MatchesEmailPattern(s) <==> EmailShape(s)
  {
    var k := FirstIndexOf(s, '@');
    if MatchesEmailPattern(s) {
      var at, dot :| 0 < at < |s| && at + 1 < dot < |s| - 1 &&
        s[at] == '@' && s[dot] == '.' && forall i | 0 <= i < |s| && i != at :: IsPartChar(s[i]);
      assert forall i | 0 <= i < k :: s[..k][i] == s[i];
      assert k == at;
      var d := s[k + 1..];
      forall i | 0 <= i < |d|
        ensures d[i] != '@'
      {
        assert IsPartChar(s[k + 1 + i]);
      }
      assert d[dot - k - 1] == '.';
      forall i | 0 <= i < |s|
        ensures !IsRegexSpace(s[i])
      {
        if i != at {
          assert IsPartChar(s[i]);
        }
      }
    }
    if EmailShape(s) {
      var d := s[k + 1..];
      var j :| 0 < j < |d| - 1 && d[j] == '.';
      forall i | 0 <= i < |s| && i != k
        ensures IsPartChar(s[i])
      {
        if i < k {
          assert s[..k][i] == s[i];
        } else {
          assert d[i - k - 1] == s[i];
        }
      }
      assert s[k] == '@' && s[k + 1 + j] == '.';
    }
  }

  // ---------------------------------------------------------------------------
  // The initiate request body and the agreement request built from it.

  /** The fields of the parsed request body the lambda reads (absent, or a string). */
  datatype Payload = Payload(quoteId: Option<string>, signerEmail: Option<string>, signerName: Option<string>)

  /** What `JSON.parse` yields: an object, `null`, or a thrown `SyntaxError`. */
  datatype Parsed = ParsedObject(payload: Payload) | ParsedNull | ParseThrew(error: Thrown)

  /** `event.body || "{}"` */
  function BodyText(body: Option<string>): (text: string)
    ensures !Truthy(body) ==> text == "{}"
    ensures Truthy(body) ==> text == body.value
  {
    OrElse(body, "{}")
  }

  /** Reading a property of `null` throws this `TypeError`. */
  const NullQuoteIdText: string := "Cannot read properties of null (reading 'quoteId')"

  /** The agreement `createAgreement` posts. */
  function AgreementBody(libraryDocumentId: Option<string>, quoteId: string, signerEmail: string,
                         signerName: Option<string>): (r: AgreementRequest)
    ensures r.name == "Quote " + quoteId + " Acceptance"
    ensures r.libraryDocumentId == libraryDocumentId
    ensures |r.participantSets| == 1
    ensures r.participantSets[0].memberEmails == [signerEmail]
    ensures r.participantSets[0].role == "SIGNER" && r.participantSets[0].order == 1
    ensures Truthy(signerName) ==> r.participantSets[0].name == signerName.value
    ensures !Truthy(signerName) ==> r.participantSets[0].name == signerEmail
    ensures r.signatureType == "ESIGN" && r.state == "IN_PROCESS"
  {
    AgreementRequest(
      name := "Quote " + quoteId + " Acceptance",
      libraryDocumentId := libraryDocumentId,
      participantSets := [ParticipantSet([signerEmail], "SIGNER", 1, OrElse(signerName, signerEmail))],
      signatureType := "ESIGN",
      state := "IN_PROCESS")
  }

  // ---------------------------------------------------------------------------
  // Replies of the REST API that the lambdas read.

  /** The reply to `POST /agreements`. */
  datatype Created = Created(id: Option<string>)

  /** One entry of `signingUrlSetInfos`. */
  datatype SigningUrlSet = SigningUrlSet(signingUrls: Option<seq<Option<string>>>)

  /** The reply to `GET /agreements/{id}/signingUrls`. */
  datatype SigningUrls = SigningUrls(signingUrlSetInfos: Option<seq<SigningUrlSet>>)

  /** `signingUrlSetInfos?.[0]?.signingUrls?.[0]?.esignUrl`, or absent anywhere along the way. */
  function FirstEsignUrl(r: SigningUrls): Option<string>
  {
    if r.signingUrlSetInfos.None? || |r.signingUrlSetInfos.value| == 0 then None
    else
      var urls := r.signingUrlSetInfos.value[0].signingUrls;
      if urls.None? || |urls.value| == 0 then None else urls.value[0]
  }

  /** `... ?.esignUrl || ""`: the first URL of the first set, or the empty string. */
  function ExtractSigningUrl(r: SigningUrls): (url: string)
    ensures url != "" <==>
              && r.signingUrlSetInfos.Some? && |r.signingUrlSetInfos.value| > 0
              && r.signingUrlSetInfos.value[0].signingUrls.Some?
              && |r.signingUrlSetInfos.value[0].signingUrls.value| > 0
              && Truthy(r.signingUrlSetInfos.value[0].signingUrls.value[0])
    ensures url != "" ==> url == r.signingUrlSetInfos.value[0].signingUrls.value[0].value
  {
    OrElse(FirstEsignUrl(r), "")
  }

  const NoSigningUrlText: string := "Unable to retrieve Adobe Sign signing URL"

  /** The agreement as `GET /agreements/{id}` returns it; fields other than the four the status
      lambda forwards are kept to show that they are dropped. */
  datatype Agreement = Agreement(
    id: Option<string>,
    status: Option<string>,
    displayDate: Option<string>,
    signedDate: Option<string>,
    name: Option<string>,
    createdDate: Option<string>,
    participantEmails: seq<string>)

  // ---------------------------------------------------------------------------
  // Responses.

  /** The JSON bodies the lambdas return; an absent field is left out by `JSON.stringify`. */
  datatype Body =
    | ErrorBody(error: string, details: Option<string>)
    | InitiateResult(agreementId: Option<string>, signingUrl: Option<string>, status: Option<string>)
    | StatusResult(agreementId: Option<string>, status: Option<string>, displayDate: Option<string>, signedDate: Option<string>)

  datatype Response = Response(statusCode: nat, headers: seq<(string, string)>, body: Body)

  /** A lambda's response and the requests it sent, in order. */
  datatype Run = Run(response: Response, calls: seq<Call>)

  const JsonCorsHeaders: seq<(string, string)> := [("Content-Type", "application/json"), ("Access-Control-Allow-Origin", "*")]

  const ConfigErrorText: string := "Server configuration error"
  const UnknownErrorText: string := "Unknown error occurred"

  /** A response without headers carrying only an error. */
  function Rejection(statusCode: nat, error: string): (r: Response)
    ensures r.statusCode == statusCode && r.headers == [] && r.body == ErrorBody(error, None)
  {
    Response(statusCode, [], ErrorBody(error, None))
  }

  /** The `catch` of both lambdas: 500, a fixed error and the thrown message as `details`. */
  function Failure(error: string, thrown: Thrown): (r: Response)
    ensures r.statusCode == 500 && r.headers == []
    ensures r.body == ErrorBody(error, Some(MessageOr(thrown, UnknownErrorText)))
  {
    Response(500, [], ErrorBody(error, Some(MessageOr(thrown, UnknownErrorText))))
  }

  /** The 200 response with the JSON and CORS headers. */
  function Success(body: Body): (r: Response)
    ensures r.statusCode == 200 && r.headers == JsonCorsHeaders && r.body == body
  {
    Response(200, JsonCorsHeaders, body)
  }
}
