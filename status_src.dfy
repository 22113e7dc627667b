/** The TypeScript `adobeSignStatus` lambda: a configuration check, the `agreementId` checks, the
    OAuth refresh, then one read of the agreement, of which four fields are returned. */
module StatusSrc {
  import opened Common
  import opened AdobeSign

  const MissingIdText: string := "Missing required parameter: agreementId"
  const InvalidIdText: string := "Invalid agreementId format"
  const StatusFailedText: string := "Unable to fetch agreement status"

  /** The replies the two requests get, in the order they are sent. */
  datatype Backend = Backend(refresh: RefreshReply, agreement: ApiReply<Agreement>)

  /** `event.queryStringParameters?.agreementId`: the parameters may be `null`. */
  function AgreementIdParam(query: Option<map<string, string>>): (id: Option<string>)
    ensures id.Some? <==> query.Some? && "agreementId" in query.value
    ensures id.Some? ==> id.value == query.value["agreementId"]
  {
    if query.Some? && "agreementId" in query.value then Some(query.value["agreementId"]) else None
  }

  /** The result object: `agreementId` from the agreement's `id`, then `status`, `displayDate` and
      `signedDate`; nothing else of the agreement. */
  function Project(a: Agreement): Body
  {
    StatusResult(a.id, a.status, a.displayDate, a.signedDate)
  }

  /** Two agreements that agree on the four forwarded fields give the same result, whatever their
      other fields hold, and the result reproduces those four fields. */
  lemma ProjectionKeepsOnlyFourFields(a1: Agreement, a2: Agreement)
    requires a1.id == a2.id && a1.status == a2.status
    requires a1.displayDate == a2.displayDate && a1.signedDate == a2.signedDate
    ensures Project(a1) == Project(a2)
    ensures Project(a1).StatusResult? && Project(a1).agreementId == a1.id && Project(a1).status == a1.status
    ensures Project(a1).displayDate == a1.displayDate && Project(a1).signedDate == a1.signedDate
  {
  }

  /** The format check as written: zero or more than 128 UTF-16 code units. */
  predicate MalformedId(id: string)
  {
    Utf16Length(id) == 0 || Utf16Length(id) > 128
  }

  /** The configuration passed and the id passed both 400 checks. */
  predicate IdAccepted(env: Env, query: Option<map<string, string>>)
  {
    HasOAuthTriple(env) && Truthy(AgreementIdParam(query)) && !MalformedId(AgreementIdParam(query).value)
  }

  /** `handler`. */
  function Handler(env: Env, query: Option<map<string, string>>, b: Backend): (run: Run)
    ensures !HasOAuthTriple(env) ==> run == Run(Rejection(500, ConfigErrorText), [])
    ensures run.response.statusCode in {200, 400, 500}
    ensures run.response.statusCode == 400 ==> run.calls == [] && run.response.headers == []
    ensures run.response == Rejection(400, MissingIdText) <==>
              HasOAuthTriple(env) && !Truthy(AgreementIdParam(query))
    // The zero-length half of the format check can never fire: an empty id was already missing.
    ensures run.response == Rejection(400, InvalidIdText) <==>
              HasOAuthTriple(env) && Truthy(AgreementIdParam(query)) && Utf16Length(AgreementIdParam(query).value) > 128
    ensures run.response.statusCode == 400 ==>
              run.response == Rejection(400, MissingIdText) || run.response == Rejection(400, InvalidIdText)
    ensures HasOAuthTriple(env) && run.response.statusCode == 500 ==>
              run.response.body.ErrorBody? && run.response.body.error == StatusFailedText
              && run.response.body.details.Some?
    // The `details` of each 500 is the message of what was thrown.
    ensures IdAccepted(env, query) && !(b.refresh.RefreshAnswered? && Truthy(b.refresh.accessToken)) ==>
              run == Run(Failure(StatusFailedText, Error(RefreshFailureDetails(env, b.refresh))),
                         [RefreshCall(RefreshUrl(env), RefreshForm(env))])
    ensures IdAccepted(env, query) && b.refresh.RefreshAnswered? && Truthy(b.refresh.accessToken)
            && !b.agreement.ApiOk? ==>
              run.response.body == ErrorBody(StatusFailedText, Some(ApiFailureDetails(b.agreement)))
    ensures run.response.statusCode == 200 <==>
              && HasOAuthTriple(env) && Truthy(AgreementIdParam(query)) && Utf16Length(AgreementIdParam(query).value) <= 128
              && b.refresh.RefreshAnswered? && Truthy(b.refresh.accessToken) && b.agreement.ApiOk?
    ensures run.response.statusCode == 200 ==>
              && run.response == Success(Project(b.agreement.value))
              && run.calls == [RefreshCall(RefreshUrl(env), RefreshForm(env)),
                               ApiCall(Get, ApiUrl(env, "/agreements/" + AgreementIdParam(query).value),
                                       b.refresh.accessToken.value, None)]
  {
    if !HasOAuthTriple(env) then Run(Rejection(500, ConfigErrorText), [])
    else
      var id := AgreementIdParam(query);
      if !Truthy(id) then Run(Rejection(400, MissingIdText), [])
      else if MalformedId(id.value) then Run(Rejection(400, InvalidIdText), [])
      else
        var (outcome, refreshCalls) := RefreshAccessToken(env, b.refresh);
        match outcome
        case TokenFailed(f) => Run(Failure(StatusFailedText, FailureThrown(f)), refreshCalls)
        case Token(token) =>
          var read := ApiCall(Get, ApiUrl(env, "/agreements/" + id.value), token, None);
          match ApiOutcome(b.agreement)
          case Failed(e) => Run(Failure(StatusFailedText, e), refreshCalls + [read])
          case Ok(a) => Run(Success(Project(a)), refreshCalls + [read])
  }

  /** The 128 limit counts UTF-16 code units, not characters: 65 characters outside the Basic
      Multilingual Plane already make a malformed id. */
  lemma LimitCountsCodeUnits(id: string)
    requires |id| == 65 && forall i :: 0 <= i < |id| ==> id[i] as int > 0xFFFF
    ensures MalformedId(id)
  {
    AllAstralDoubles(id);
  }

  lemma {:induction false} AllAstralDoubles(s: string)
    requires forall i :: 0 <= i < |s| ==> s[i] as int > 0xFFFF
    ensures Utf16Length(s) == 2 * |s|
  {
    if s != [] {
      assert forall i :: 0 <= i < |s[1..]| ==> s[1..][i] == s[i + 1];
      AllAstralDoubles(s[1..]);
    }
  }
}
