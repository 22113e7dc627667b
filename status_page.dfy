/** The agreement status page `app/proposal/status/page.tsx`: a poller whose state (`statusData`,
    `error`, `isLoading`, the last seen status and each effect run's `cancelled` flag) changes as each
    status request settles, plus the label, message, date and recipient fallbacks of its view. The
    answers reach the page through the `getAdobeSignAgreementStatus` client of `lib/adobeSign.ts`,
    modelled by the outcome it settles to; `Date` parsing and `toLocaleString` are parameters. */
module StatusPage {
  import opened Common
  import opened AdobeSign
  import StatusSrc
  import StatusDist

  const MissingIdText: string := "Missing agreementId in URL."
  const FetchFailedText: string := "Failed to fetch agreement status"
  const UnknownLabel: string := "UNKNOWN"
  const DefaultMessage: string := "Status updated. Please review in Adobe account."
  const DefaultAgreementName: string := "Quote Acceptance"
  const FetchStatusFailedPrefix: string := "Failed to fetch status ("

  /** `STATUS_COPY` */
  const StatusCopy: map<string, string> := map[
    "IN_PROCESS" := "Sent for signature. User will sign from Adobe email.",
    "SIGNED" := "Signed successfully.",
    "CANCELLED" := "Agreement was cancelled.",
    "EXPIRED" := "Agreement has expired."]

  datatype Recipient = Recipient(email: string, name: Option<string>)

  /** The page's `AgreementStatus`: what it is prepared to show. */
  datatype StatusData = StatusData(
    agreementId: Option<string>,
    status: Option<string>,
    agreementName: Option<string>,
    createdDate: Option<string>,
    displayDate: Option<string>,
    signedDate: Option<string>,
    senderEmail: Option<string>,
    senderName: Option<string>,
    recipients: Option<seq<Recipient>>)

  /** `previousStatusRef.current`: `null` before the first answer, then the last status seen
      (which may itself be `undefined`). */
  datatype LastSeen = NothingSeen | Seen(status: Option<string>)

  /** The data the page receives for a lambda body: the four forwarded fields, nothing else. */
  function FromBody(body: Body): (d: StatusData)
    ensures d.agreementName.None? && d.createdDate.None? && d.recipients.None?
    ensures d.senderEmail.None? && d.senderName.None?
    ensures body.StatusResult? ==> d.agreementId == body.agreementId && d.status == body.status
                                   && d.displayDate == body.displayDate && d.signedDate == body.signedDate
  {
    match body
    case StatusResult(id, status, displayDate, signedDate) => StatusData(id, status, None, None, displayDate, signedDate, None, None, None)
    case _ => StatusData(None, None, None, None, None, None, None, None, None)
  }

  /** What `getAdobeSignAgreementStatus` settles to for a lambda response. */
  function StatusOutcome(r: Response): (outcome: Result<StatusData>)
    ensures 200 <= r.statusCode < 300 ==> outcome == Ok(FromBody(r.body))
    ensures !(200 <= r.statusCode < 300) && r.body.ErrorBody? && r.body.error != "" ==>
              outcome == Failed(Error(r.body.error))
    ensures !(200 <= r.statusCode < 300) && !(r.body.ErrorBody? && r.body.error != "") ==>
              outcome == Failed(Error(FetchStatusFailedPrefix + NatToString(r.statusCode) + ")"))
    ensures !(200 <= r.statusCode < 300) ==> outcome.Failed? && outcome.error.Error?
  {
    if 200 <= r.statusCode < 300 then Ok(FromBody(r.body))
    else
      var reported := if r.body.ErrorBody? then Some(r.body.error) else None;
      Failed(Error(OrElse(reported, FetchStatusFailedPrefix + NatToString(r.statusCode) + ")")))
  }

  /** `statusData?.status || "UNKNOWN"` */
  function StatusLabel(d: Option<StatusData>): (text: string)
    ensures d.Some? && Truthy(d.value.status) ==> text == d.value.status.value
    ensures !(d.Some? && Truthy(d.value.status)) ==> text == UnknownLabel
    ensures text != ""
  {
    if d.Some? then OrElse(d.value.status, UnknownLabel) else UnknownLabel
  }

  /** `STATUS_COPY[statusLabel] || "Status updated. ..."` */
  function StatusMessage(statusText: string): (message: string)
    ensures statusText in StatusCopy ==> message == StatusCopy[statusText]
    ensures statusText !in StatusCopy ==> message == DefaultMessage
    ensures message != ""
  {
    if statusText in StatusCopy && StatusCopy[statusText] != "" then StatusCopy[statusText] else DefaultMessage
  }

  /** `formatDateTime`: "-" for nothing, the text itself when `Date` cannot read it, else the local
      rendering of the instant. */
  function FormatDateTime(value: Option<string>, parseDate: string -> Option<int>, toLocale: int -> string): (shown: string)
    ensures !Truthy(value) ==> shown == "-"
    ensures Truthy(value) && parseDate(value.value).None? ==> shown == value.value
    ensures Truthy(value) && parseDate(value.value).Some? ==> shown == toLocale(parseDate(value.value).value)
  {
    if !Truthy(value) then "-"
    else match parseDate(value.value)
      case None => value.value
      case Some(t) => toLocale(t)
  }

  /** `statusData?.recipients || []` */
  function Recipients(d: Option<StatusData>): (rs: seq<Recipient>)
    ensures d.Some? && d.value.recipients.Some? ==> rs == d.value.recipients.value
    ensures !(d.Some? && d.value.recipients.Some?) ==> rs == []
  {
    if d.Some? && d.value.recipients.Some? then d.value.recipients.value else []
  }

  /** `statusData?.agreementName || "Quote Acceptance"` */
  function AgreementName(d: Option<StatusData>): (name: string)
    ensures d.Some? && Truthy(d.value.agreementName) ==> name == d.value.agreementName.value
    ensures !(d.Some? && Truthy(d.value.agreementName)) ==> name == DefaultAgreementName
  {
    if d.Some? then OrElse(d.value.agreementName, DefaultAgreementName) else DefaultAgreementName
  }

  /** One line of the recipient list: the name and a space when there is a name, then the e-mail in
      angle brackets. */
  function RecipientLine(r: Recipient): (line: string)
    ensures Truthy(r.name) ==> line == r.name.value + " <" + r.email + ">"
    ensures !Truthy(r.name) ==> line == "<" + r.email + ">"
  {
    (if Truthy(r.name) then r.name.value + " " else "") + "<" + r.email + ">"
  }

  /** The "Sent By" text: the sender's name and a space when known, then the e-mail in angle
      brackets, or "-" without an e-mail. */
  function SentBy(d: Option<StatusData>): (text: string)
    ensures d.Some? && Truthy(d.value.senderEmail) && Truthy(d.value.senderName) ==>
              text == d.value.senderName.value + " <" + d.value.senderEmail.value + ">"
    ensures d.Some? && Truthy(d.value.senderEmail) && !Truthy(d.value.senderName) ==>
              text == "<" + d.value.senderEmail.value + ">"
    ensures d.Some? && !Truthy(d.value.senderEmail) && Truthy(d.value.senderName) ==>
              text == d.value.senderName.value + " -"
    ensures !(d.Some? && (Truthy(d.value.senderEmail) || Truthy(d.value.senderName))) ==> text == "-"
  {
    if d.None? then "-"
    else
      (if Truthy(d.value.senderName) then d.value.senderName.value + " " else "")
      + (if Truthy(d.value.senderEmail) then "<" + d.value.senderEmail.value + ">" else "-")
  }

  class StatusPoller {
    /** `searchParams.get("agreementId") || ""` of the latest render; the effect re-runs when it
        changes while the page stays mounted. */
    var agreementId: string
    var statusData: Option<StatusData>
    var error: Option<string>
    var isLoading: bool
    var previousStatus: LastSeen
    /** The statuses announced by `console.info("Agreement status updated", ...)`, oldest first. */
    var announced: seq<Option<string>>
    /** The `cancelled` flag of each effect run that started polling, oldest first: every run
        closes over a flag of its own, and only its own cleanup sets it. */
    var cancelled: seq<bool>
    /** Whether status requests have been started (the first one and the interval). */
    var polling: bool

    constructor (query: Option<string>)
      ensures agreementId == OrElse(query, "")
      ensures statusData == None && error == None && isLoading && previousStatus == NothingSeen
      ensures announced == []
      ensures cancelled == [] && !polling
    {
      agreementId := OrElse(query, "");
      statusData := None;
      error := None;
      isLoading := true;
      previousStatus := NothingSeen;
      announced := [];
      cancelled := [];
      polling := false;
    }

    /** The effect's body for the id of the current query (the first render's, or a new one after
        the previous run's cleanup): without an id it reports the error and starts nothing; otherwise
        a new run with a fresh `cancelled` flag starts polling. The data, the last seen status and,
        with an id, the error and loading flag of the previous agreement are kept: nothing resets them. */
    method Mount(query: Option<string>)
      modifies this
      ensures agreementId == OrElse(query, "")
      ensures statusData == old(statusData) && previousStatus == old(previousStatus) && announced == old(announced)
      ensures agreementId == "" ==>
                error == Some(MissingIdText) && !isLoading && !polling && cancelled == old(cancelled)
      ensures agreementId != "" ==>
                error == old(error) && isLoading == old(isLoading) && polling && cancelled == old(cancelled) + [false]
    {
      agreementId := OrElse(query, "");
      if agreementId == "" {
        error := Some(MissingIdText);
        isLoading := false;
        polling := false;
        return;
      }
      cancelled := cancelled + [false];
      polling := true;
    }

    /** Whether run `run` has started and not been cleaned up. */
    predicate Live(run: nat)
      reads this
    {
      run < |cancelled| && !cancelled[run]
    }

    /** One `fetchStatus` of run `run` settling. Unless that run is cancelled: an answer replaces
        `statusData`, clears the error and records a changed status; a rejection sets the error and
        keeps the old data; either way loading ends. A cancelled run changes nothing, even when a
        later run is polling. */
    method Settle(run: nat, outcome: Result<StatusData>)
      modifies this
      ensures cancelled == old(cancelled) && polling == old(polling)
      ensures !old(Live(run)) ==>
                statusData == old(statusData) && error == old(error) && isLoading == old(isLoading)
                && previousStatus == old(previousStatus) && announced == old(announced)
      ensures old(Live(run)) ==> !isLoading
      ensures old(Live(run)) && outcome.Ok? ==>
                statusData == Some(outcome.value) && error == None && previousStatus == Seen(outcome.value.status)
      // A status is announced exactly when it differs from the last one seen.
      ensures old(Live(run)) && outcome.Ok? ==>
                announced == if old(previousStatus) != Seen(outcome.value.status)
                             then old(announced) + [outcome.value.status] else old(announced)
      ensures old(Live(run)) && outcome.Failed? ==>
                statusData == old(statusData) && error == Some(MessageOr(outcome.error, FetchFailedText))
                && previousStatus == old(previousStatus) && announced == old(announced)
    {
      if !Live(run) {
        return;
      }
      match outcome {
        case Ok(data) =>
          if previousStatus != Seen(data.status) {
            announced := announced + [data.status];
            previousStatus := Seen(data.status);
          }
          statusData := Some(data);
          error := None;
        case Failed(e) =>
          error := Some(MessageOr(e, FetchFailedText));
      }
      isLoading := false;
    }

    /** The cleanup of the latest run: its later settlements are ignored and the interval stops. */
    method Teardown()
      modifies this
      ensures cancelled == if old(cancelled) == [] then [] else old(cancelled)[|old(cancelled)| - 1 := true]
      ensures !polling
      ensures statusData == old(statusData) && error == old(error) && isLoading == old(isLoading)
      ensures previousStatus == old(previousStatus) && announced == old(announced)
    {
      if cancelled != [] {
        cancelled := cancelled[|cancelled| - 1 := true];
      }
      polling := false;
    }
  }

  /** Mount, clean up, mount again (as a remount with the same id does), then the first run's
      request settles late: the page keeps showing nothing, because that run's own flag is set. */
  method StaleFetchIsIgnored(query: Option<string>, late: Result<StatusData>) returns (shown: Option<StatusData>, loading: bool)
    requires Truthy(query)
    ensures shown == None && loading
  {
    var page := new StatusPoller(query);
    page.Mount(query);
    page.Teardown();
    page.Mount(query);
    page.Settle(0, late);
    shown, loading := page.statusData, page.isLoading;
  }

  /** The query loses its id while the page stays mounted, after an answer for the first id: the
      missing-id error is shown next to the old agreement's data, which nothing clears. */
  method IdRemovedKeepsOldData(first: string, answer: StatusData) returns (shown: Option<StatusData>, err: Option<string>)
    requires first != ""
    ensures shown == Some(answer) && err == Some(MissingIdText)
  {
    var page := new StatusPoller(Some(first));
    page.Mount(Some(first));
    page.Settle(0, Ok(answer));
    page.Teardown();
    page.Mount(None);
    shown, err := page.statusData, page.error;
  }

  /** Whatever either status lambda answers, the page shows no recipients, the default agreement
      name and "-" as the sent date: the lambdas forward none of those fields. */
  lemma LambdaDataHasNoRecipients(r: Response, parseDate: string -> Option<int>, toLocale: int -> string)
    requires StatusOutcome(r).Ok?
    ensures Recipients(Some(StatusOutcome(r).value)) == []
    ensures AgreementName(Some(StatusOutcome(r).value)) == DefaultAgreementName
    ensures FormatDateTime(StatusOutcome(r).value.createdDate, parseDate, toLocale) == "-"
    ensures SentBy(Some(StatusOutcome(r).value)) == "-"
  {
  }

  /** A 200 of the TypeScript status lambda shows the agreement's own status as the label. */
  lemma SrcAnswerShowsAgreementStatus(env: Env, query: Option<map<string, string>>, b: StatusSrc.Backend)
    requires StatusSrc.Handler(env, query, b).response.statusCode == 200
    requires Truthy(b.agreement.value.status)
    ensures StatusOutcome(StatusSrc.Handler(env, query, b).response).Ok?
    ensures StatusLabel(Some(StatusOutcome(StatusSrc.Handler(env, query, b).response).value)) == b.agreement.value.status.value
  {
  }

  /** Every error response of the status lambdas reaches the page as its `error` text. */
  lemma LambdaErrorsReachThePage(env: Env, query: Option<map<string, string>>, b: StatusSrc.Backend)
    requires StatusDist.Handler(env, query, b).response.statusCode != 200
    ensures StatusOutcome(StatusDist.Handler(env, query, b).response)
            == Failed(Error(StatusDist.Handler(env, query, b).response.body.error))
  {
  }
}
