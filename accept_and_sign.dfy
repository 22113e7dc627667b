/** `AcceptAndSignButton`: a click checks the signed-in user's e-mail, marks the button as
    submitting, asks the initiate lambda for an agreement and either navigates to its signing URL or
    shows an error. The lambda's answer reaches the button through the `initiateAdobeSignAgreement`
    client of `lib/adobeSign.ts`, modelled here by the outcome it settles to. */
module AcceptAndSign {
  import opened Common
  import opened AdobeSign
  import Cognito
  import InitiateSrc
  import InitiateDist

  const SignInRequiredText: string := "You must be signed in with a valid email to sign this quote."
  const NoSigningUrlReturnedText: string := "No signing URL returned from Adobe Sign"
  const StartFailedText: string := "Unable to start Adobe Sign flow"
  const SubmittingLabel: string := "Preparing Adobe Sign..."
  const IdleLabel: string := "Accept & Sign Quote"
  const InitiateFailedPrefix: string := "Failed to initiate Adobe Sign ("

  /** `user.name ?? user.username ?? user.email`: only an absent value falls through, so an empty
      name is kept. */
  function SignerName(u: Cognito.AuthUser): (name: string)
    ensures u.name.Some? ==> name == u.name.value
    ensures u.name.None? && u.username.Some? ==> name == u.username.value
    ensures u.name.None? && u.username.None? ==> name == u.email
  {
    Coalesce(Coalesce(u.name, u.username), Some(u.email)).value
  }

  /** What `initiateAdobeSignAgreement` settles to for a lambda response: the `signingUrl` of an ok
      reply, or a rejection carrying the reply's `error` (or a text naming the status). */
  function InitiateOutcome(r: Response): (outcome: Result<Option<string>>)
    ensures 200 <= r.statusCode < 300 ==>
              outcome == Ok(if r.body.InitiateResult? then r.body.signingUrl else None)
    ensures !(200 <= r.statusCode < 300) && r.body.ErrorBody? && r.body.error != "" ==>
              outcome == Failed(Error(r.body.error))
    ensures !(200 <= r.statusCode < 300) && !(r.body.ErrorBody? && r.body.error != "") ==>
              outcome == Failed(Error(InitiateFailedPrefix + NatToString(r.statusCode) + ")"))
    ensures !(200 <= r.statusCode < 300) ==> outcome.Failed? && outcome.error.Error?
  {
    if 200 <= r.statusCode < 300 then Ok(if r.body.InitiateResult? then r.body.signingUrl else None)
    else
      var reported := if r.body.ErrorBody? then Some(r.body.error) else None;
      Failed(Error(OrElse(reported, InitiateFailedPrefix + NatToString(r.statusCode) + ")")))
  }

  class AcceptAndSignButton {
    const quoteId: string
    var isSubmitting: bool
    var error: Option<string>
    /** Where `window.location.assign` sent the browser, if anywhere. */
    var navigatedTo: Option<string>

    constructor (quoteId: string)
      ensures this.quoteId == quoteId && !isSubmitting && error == None && navigatedTo == None
    {
      this.quoteId := quoteId;
      isSubmitting := false;
      error := None;
      navigatedTo := None;
    }

    /** `disabled={isSubmitting}` */
    function Disabled(): (d: bool)
      reads this
      ensures d <==> isSubmitting
    {
      isSubmitting
    }

    /** The button text switches with `isSubmitting`. */
    function Label(): (text: string)
      reads this
      ensures isSubmitting ==> text == SubmittingLabel
      ensures !isSubmitting ==> text == IdleLabel
    {
      if isSubmitting then SubmittingLabel else IdleLabel
    }

    /** The part of `handleClick` before the request: without an e-mail only the error is set and
        nothing is sent; otherwise the button turns busy, the error is cleared and the request goes out. */
    method Start(user: Option<Cognito.AuthUser>) returns (request: Option<Payload>)
      modifies this
      ensures navigatedTo == old(navigatedTo)
      ensures user.None? || user.value.email == "" ==>
                request == None && error == Some(SignInRequiredText) && isSubmitting == old(isSubmitting)
      ensures user.Some? && user.value.email != "" ==>
                && request == Some(Payload(Some(quoteId), Some(user.value.email), Some(SignerName(user.value))))
                && isSubmitting && error == None
    {
      if user.None? || user.value.email == "" {
        error := Some(SignInRequiredText);
        return None;
      }
      isSubmitting := true;
      error := None;
      request := Some(Payload(Some(quoteId), Some(user.value.email), Some(SignerName(user.value))));
    }

    /** The part of `handleClick` after the request settles: a non-empty signing URL is followed and
        the button stays busy; anything else shows an error and frees the button. */
    method Finish(outcome: Result<Option<string>>)
      modifies this
      ensures outcome.Ok? && Truthy(outcome.value) ==>
                navigatedTo == outcome.value && isSubmitting == old(isSubmitting) && error == old(error)
      ensures outcome.Ok? && !Truthy(outcome.value) ==>
                navigatedTo == old(navigatedTo) && !isSubmitting && error == Some(NoSigningUrlReturnedText)
      ensures outcome.Failed? ==>
                navigatedTo == old(navigatedTo) && !isSubmitting
                && error == Some(MessageOr(outcome.error, StartFailedText))
    {
      var thrown: Thrown;
      match outcome {
        case Ok(signingUrl) =>
          if Truthy(signingUrl) {
            navigatedTo := signingUrl;
            return;
          }
          thrown := Error(NoSigningUrlReturnedText);
        case Failed(e) =>
          thrown := e;
      }
      error := Some(MessageOr(thrown, StartFailedText));
      isSubmitting := false;
    }

    /** A click on the enabled button: `Start`, then, if a request went out, `Finish` with the
        response of the lambda that answered it. */
    method HandleClick(user: Option<Cognito.AuthUser>, response: Response)
      returns (request: Option<Payload>)
      requires !isSubmitting
      modifies this
      // A request goes out exactly when the user has an e-mail, and carries the quote and the signer.
      ensures request == if user.None? || user.value.email == "" then None
                         else Some(Payload(Some(quoteId), Some(user.value.email), Some(SignerName(user.value))))
      ensures request.None? ==> error == Some(SignInRequiredText) && !isSubmitting && navigatedTo == old(navigatedTo)
      ensures request.Some? ==>
                var outcome := InitiateOutcome(response);
                if outcome.Ok? && Truthy(outcome.value)
                then navigatedTo == outcome.value && isSubmitting && error == None
                else navigatedTo == old(navigatedTo) && !isSubmitting
                     && error == Some(if outcome.Ok? then NoSigningUrlReturnedText else MessageOr(outcome.error, StartFailedText))
    {
      request := Start(user);
      if request.Some? {
        Finish(InitiateOutcome(response));
      }
    }
  }

  /** Against the compiled lambda the button can never navigate: no response of it, for any
      configuration, request body or Adobe Sign reply, settles to a signing URL. */
  lemma DistNeverGivesSigningUrl(env: Env, body: Option<string>, parse: string -> Parsed, b: InitiateDist.Backend)
    ensures var outcome := InitiateOutcome(InitiateDist.Handler(env, body, parse, b).response);
            !(outcome.Ok? && Truthy(outcome.value))
  {
  }

  /** Against the TypeScript lambda every 200 response settles to its non-empty signing URL, so the
      button navigates to it. */
  lemma SrcSuccessGivesSigningUrl(env: Env, body: Option<string>, parse: string -> Parsed, b: InitiateSrc.Backend)
    requires InitiateSrc.Handler(env, body, parse, b).response.statusCode == 200
    ensures InitiateOutcome(InitiateSrc.Handler(env, body, parse, b).response)
            == Ok(Some(ExtractSigningUrl(b.signingUrls.value)))
    ensures Truthy(Some(ExtractSigningUrl(b.signingUrls.value)))
  {
  }

  /** A click answered by the compiled lambda always ends with an error shown and the button freed;
      when the lambda succeeds, that error is "No signing URL returned from Adobe Sign". */
  method ClickAgainstDist(button: AcceptAndSignButton, user: Option<Cognito.AuthUser>, env: Env,
                          body: Option<string>, parse: string -> Parsed, b: InitiateDist.Backend)
    returns (request: Option<Payload>)
    requires !button.isSubmitting
    modifies button
    ensures button.navigatedTo == old(button.navigatedTo)
    ensures !button.isSubmitting && button.error.Some?
    ensures request.Some? <==> user.Some? && user.value.email != ""
    ensures InitiateDist.Handler(env, body, parse, b).response.statusCode == 200 && request.Some? ==>
              button.error == Some(NoSigningUrlReturnedText)
  {
    DistNeverGivesSigningUrl(env, body, parse, b);
    request := button.HandleClick(user, InitiateDist.Handler(env, body, parse, b).response);
  }
}
