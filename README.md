# Verified model of the amplify_task quote-signing flow

This project models the decision logic of a Next.js quote-acceptance app in Dafny. It covers
Cognito hosted-UI sign-in with PKCE and the client session. It also covers two AWS Lambda
handlers that create and query Adobe Sign agreements, in both their TypeScript and compiled
JavaScript forms, and the client components that call those handlers. Every effect is an input or
a parameter of the model: `fetch` replies, `crypto.getRandomValues` bytes, the SHA-256 digest,
`JSON.parse`, `encodeURIComponent`, `Date` parsing and formatting, the clock, the decoded JWT claims
and the Cognito user pool's answer. Handlers are pure functions that return their response together
with the requests they sent, so that "no request is sent" can be stated.

| module | file | models |
|---|---|---|
| `Common` | common.dfy | JavaScript truthiness, `\|\|` and `??`, `${x}` of an absent value, thrown values, decimal text, UTF-16 length, `localStorage` as a `Storage` class |
| `Base64` | base64.dfy | `btoa` (section 4 of RFC 4648), the base64url post-processing (section 5 of RFC 4648), what `atob` accepts |
| `Cognito` | cognito.dfy | `lib/cognito.ts`: PKCE verifier and S256 challenge (RFC 7636), authorize query, stored-token session, token exchange, sign-out |
| `AdobeSign` | adobe_sign.dfy | what both lambdas share: environment, OAuth refresh, REST wrapper, error texts, e-mail regex, agreement body, signing-URL extraction, responses |
| `InitiateSrc` / `InitiateDist` | initiate_src.dfy / initiate_dist.dfy | the `adobeSignInitiate` handler, TypeScript and compiled |
| `StatusSrc` / `StatusDist` | status_src.dfy / status_dist.dfy | the `adobeSignStatus` handler, TypeScript and compiled |
| `AuthContext` | auth_context.dfy | `lib/authContext.tsx`: the `AuthProvider` state (`user`, `isLoading`) |
| `AuthCallback` | auth_callback.dfy | `app/auth/callback/page.tsx`: redirect decision and token storage |
| `AcceptAndSign` | accept_and_sign.dfy | `AcceptAndSignButton` submission state, with the `initiateAdobeSignAgreement` client outcome |
| `StatusPage` | status_page.dfy | the status page poller and its view fallbacks, with the `getAdobeSignAgreementStatus` client outcome |

## Model

| member | source | states |
|---|---|---|
| Base64.EncodeShape | lib/cognito.ts:115-121 | `btoa` output has 4·⌈n/3⌉ characters: alphabet characters, then exactly (3 − n mod 3) mod 3 `=` |
| Base64.UrlEncodingShape | lib/cognito.ts:121 | after the replacements and padding removal the text has ⌈4n/3⌉ characters, each the URL-safe counterpart of the standard one, and holds no `+`, `/` or `=` |
| Base64.DigestChallengeLength | lib/cognito.ts:124-128 | a 32-byte SHA-256 digest gives a 43-character challenge |
| Base64.ToStandardInvertsToUrl | lib/cognito.ts:121 | the URL-safe post-processing loses nothing: mapping `-`, `_` back and re-padding gives the standard encoding |
| Base64.AtobAcceptsStandard | lib/cognito.ts:44 | `atob` accepts every standard base 64 text |
| Base64.AtobRejectsUrlAlphabet | lib/cognito.ts:44 | `atob` throws on any text containing `-` or `_` |
| Base64.AtobRejectsEncodedSegment | lib/cognito.ts:43-44 | the byte 0xFF encodes as the base64url segment `_w`, which `atob` rejects, while its standard form is accepted |
| Cognito.VerifierAlphabetIsUnreserved | lib/cognito.ts:105 | the character set has 66 characters, all unreserved, and holds every unreserved character |
| Cognito.GenerateRandomString | lib/cognito.ts:104-113 | n characters, the i-th being the alphabet character at byte i mod 66, all unreserved |
| Cognito.GenerateVerifier | lib/cognito.ts:138 | the 96-character verifier meets section 4.1 of RFC 7636 (43 to 128 unreserved characters) |
| Cognito.Base64UrlEncode | lib/cognito.ts:115-122 | the byte loop followed by `btoa` and the replacements equals the base64url encoding of the bytes |
| Cognito.S256Challenge | lib/cognito.ts:124-128 | the challenge is the digest's unpadded base64url text, with no `+`, `/` or `=`, and 43 characters long for a 32-byte digest |
| Common.RemoveAll | lib/cognito.ts:134 | `replace(/"/g, "")` leaves no `"` and keeps every other character, each as often as before |
| Common.RemoveAllConcat | lib/cognito.ts:134 | the removal distributes over concatenation, so the kept characters stay in their order |
| Cognito.AuthorizeParams | lib/cognito.ts:133-151 | `response_type=code` and `code_challenge_method=S256` always; a configured scope is sent with its `"` removed, else "openid profile email"; `identity_provider` defaults to "AzureAD"; client id and redirect URI default to "" |
| Cognito.GetHostedUILoginUrl | lib/cognito.ts:103-154 | the stored verifier is the 96 alphabet characters picked by the random bytes, a valid RFC 7636 verifier, under its session key (nothing else changes); the authorize request carries its S256 challenge |
| Cognito.EmailLocalPart | lib/cognito.ts:52 | the text before the first `@`, or all of it when there is none |
| Cognito.DisplayName | lib/cognito.ts:48-52 | the first truthy of `name`, `given_name`, `preferred_username`, then the e-mail's local part; absent exactly when all four are falsy |
| Cognito.UserFromClaims | lib/cognito.ts:54-61 | username is `preferred_username`, else `sub`; e-mail and refresh token default to "" |
| Cognito.UnexpiredMeansExpiryAfterNow | lib/cognito.ts:46-47 | `exp > floor(now/1000)` holds exactly when the expiry instant in milliseconds lies strictly after now |
| Cognito.CheckStoredTokens | lib/cognito.ts:41-69 | a session exactly when both tokens are truthy, the payload decodes and `exp` is unexpired; corrupt exactly when both are truthy and decoding throws |
| Cognito.GetUserFromStoredTokens | lib/cognito.ts:37-69 | the session's user or none; storage loses exactly the three token keys when decoding fails, and is unchanged otherwise |
| Cognito.GetCurrentUser | lib/cognito.ts:35-101 | the stored-token user when there is one, else the pool's answer |
| Cognito.SignOut | lib/cognito.ts:24-33 | removes exactly the three token keys |
| Cognito.ExchangeErrorText | lib/cognito.ts:181-187 | `error_description`, else `error`, else "Failed to exchange code for token"; never empty |
| Cognito.TokenParams | lib/cognito.ts:160-175 | grant type `authorization_code`, the code, the stored verifier or "", and the client id and redirect URI |
| Cognito.ExchangeResult | lib/cognito.ts:179-207 | a refused reply throws the error text; success exactly when the reply is ok, has an `id_token` and the payload decodes, giving the user built from the claims |
| Cognito.ExchangeCodeForToken | lib/cognito.ts:156-208 | posts to `/oauth2/token`; the PKCE verifier is removed only after an ok reply and kept when the exchange is refused |
| AdobeSign.BaseUri | amplify/functions/adobeSignInitiate/src/index.ts:21-22 | the configured base URI, else `https://api.na1.adobesign.com` |
| AdobeSign.RefreshAccessToken | amplify/functions/adobeSignInitiate/src/index.ts:34-66 | without the OAuth triple it throws with no request; otherwise one POST; a token exactly when the reply carries a non-empty `access_token`; a refused reply, an answer without `access_token` and a rejected request each give their own failure |
| AdobeSign.RefreshFailureDetails | amplify/functions/adobeSignInitiate/src/index.ts:55-61 | the message a failed refresh throws: "Adobe OAuth refresh failed (status): text", "Adobe OAuth refresh did not return an access_token", or the rejected request's message |
| AdobeSign.FailureThrown | amplify/functions/adobeSignInitiate/src/index.ts:35-62 | each refresh failure throws its own text, including the status and body of a refused refresh |
| AdobeSign.GetAdobeAccessToken | amplify/functions/adobeSignInitiate/dist/index.js:42-47 | a set static token is returned with no request; otherwise the refresh decides |
| AdobeSign.ApiOutcome | amplify/functions/adobeSignInitiate/src/index.ts:68-91 | the reply body exactly on an ok reply; "Adobe Sign API error (status): text" on a refused one |
| AdobeSign.ApiFailureDetails | amplify/functions/adobeSignInitiate/src/index.ts:83-88 | the message a failed REST call throws: "Adobe Sign API error (status): text", or the rejected request's message |
| AdobeSign.FailureTextIdentifiesStep | amplify/functions/adobeSignInitiate/src/index.ts:55-87 | from a refused refresh's or a refused REST call's text alone, the failing step, the status and the reply text can be read back |
| AdobeSign.StatusTextInjective | amplify/functions/adobeSignInitiate/src/index.ts:83-88 | the status and body can be read back from the error text: different failures give different texts |
| AdobeSign.EmailPatternMeansShape | amplify/functions/adobeSignInitiate/src/index.ts:195-201 | the regex matches exactly when there is no white space, exactly one `@` after a non-empty local part, and a `.` in the domain that is neither its first nor last character |
| AdobeSign.BodyText | amplify/functions/adobeSignInitiate/src/index.ts:183 | an absent or empty body is read as `{}` |
| AdobeSign.AgreementBody | amplify/functions/adobeSignInitiate/src/index.ts:105-118 | name "Quote {id} Acceptance", the library document, one SIGNER set of order 1 named `signerName` or else the e-mail, ESIGN, IN_PROCESS |
| AdobeSign.ExtractSigningUrl | amplify/functions/adobeSignInitiate/src/index.ts:134-135 | non-empty exactly when the first URL of the first set exists and is non-empty, and then it is that URL |
| AdobeSign.Failure | amplify/functions/adobeSignInitiate/src/index.ts:221-234 | 500, no headers, the fixed error and the thrown message (or "Unknown error occurred") as `details` |
| AdobeSign.Success | amplify/functions/adobeSignInitiate/src/index.ts:213-220 | 200 with JSON content type and wildcard CORS headers |
| InitiateSrc.CreateAgreement | amplify/functions/adobeSignInitiate/src/index.ts:93-155 | POST of the agreement body first; success exactly when create, signing URLs (non-empty) and status all succeed; an empty URL throws after two requests |
| InitiateSrc.Handler | amplify/functions/adobeSignInitiate/src/index.ts:157-235 | config 500 before reading the body; 400 exactly for a parsed body that fails the field or e-mail check, with the right text and no request; bad JSON gives 500 with details, never 400; each later 500 carries as `details` the message of the step that failed (refresh, create, signing URLs, empty URL, status read); 200 exactly when every step succeeds, with the headers, result and four requests |
| InitiateSrc.RefreshNeverMissesOAuth | amplify/functions/adobeSignInitiate/src/index.ts:166-179 | after the handler's configuration check the refresh never reports missing OAuth variables and sends one request |
| InitiateDist.ConfigOk | amplify/functions/adobeSignInitiate/dist/index.js:95-107 | passes exactly when (a static token or the full OAuth triple) and the library document id are set |
| InitiateDist.CreateAgreement | amplify/functions/adobeSignInitiate/dist/index.js:63-88 | one POST only; success returns the id and `IN_PROCESS` with no signing URL |
| InitiateDist.Handler | amplify/functions/adobeSignInitiate/dist/index.js:89-150 | the same ladder as the TypeScript handler, with the same 400 texts under any configuration it accepts, each 500 carrying the failed step's message as `details`; a static token means no refresh request; 200 never carries a signing URL |
| InitiateDist.ConfigWeakerThanSrc | amplify/functions/adobeSignInitiate/dist/index.js:95-99 | every configuration the TypeScript handler accepts, the compiled one accepts |
| InitiateDist.StaticTokenSuffices | amplify/functions/adobeSignInitiate/dist/index.js:95-99 | a static token and library document id pass the check without the OAuth triple |
| InitiateDist.SameRejectionsAsSrc | amplify/functions/adobeSignInitiate/dist/index.js:110-126 | under a shared configuration both handlers give the same 400s, in the same order |
| InitiateDist.TokenNeverMissesOAuth | amplify/functions/adobeSignInitiate/dist/index.js:42-47 | after the compiled configuration check, the token lookup never reports missing OAuth variables |
| StatusSrc.AgreementIdParam | amplify/functions/adobeSignStatus/src/index.ts:110 | the `agreementId` query parameter, absent when the parameters are `null` |
| StatusSrc.ProjectionKeepsOnlyFourFields | amplify/functions/adobeSignStatus/src/index.ts:141-146 | the result holds `id` (as `agreementId`), `status`, `displayDate` and `signedDate`, and depends on nothing else |
| StatusSrc.Handler | amplify/functions/adobeSignStatus/src/index.ts:91-170 | config 500 first; missing id 400; over-128 400, whose length-0 half is unreachable; 500 whose `details` is the refresh's or the read's message; 200 exactly when the refresh and read succeed, with the projection and the two requests |
| StatusSrc.LimitCountsCodeUnits | amplify/functions/adobeSignStatus/src/index.ts:122 | the limit counts UTF-16 code units: 65 astral characters are already too long |
| StatusDist.ConfigOk | amplify/functions/adobeSignStatus/dist/index.js:66-75 | passes exactly when a static token or the full OAuth triple is set |
| StatusDist.Handler | amplify/functions/adobeSignStatus/dist/index.js:62-125 | the same ladder and projection, with the missing-id and over-128 400 texts as exact conditions, each 500 carrying the failed step's message as `details`; a static token means no refresh request |
| StatusDist.StaticTokenSuffices | amplify/functions/adobeSignStatus/dist/index.js:66-75 | with only a static token the compiled handler passes the check where the TypeScript one gives the configuration 500 |
| StatusDist.SameAsSrc | amplify/functions/adobeSignStatus/dist/index.js:76-113 | under the OAuth triple both handlers give the same 400s, and agree on everything when no static token is set |
| AuthContext.NoTokensNoSession | lib/cognito.ts:41 | once the ID token key is gone, the stored tokens never yield a session |
| AuthContext.AuthProvider.constructor | lib/authContext.tsx:24-25 | the provider starts with no user and `isLoading` set |
| AuthContext.AuthProvider.IsAuthenticated | lib/authContext.tsx:85 | holds exactly when a user is set |
| AuthContext.AuthProvider.Value | lib/authContext.tsx:80-92 | the context value carries the state, with `isAuthenticated` exactly when a user is set |
| AuthContext.AuthProvider.SetUser | lib/authContext.tsx:87 | sets the user and leaves `isLoading` alone |
| AuthContext.AuthProvider.CheckAuth | lib/authContext.tsx:28-43 | the stored-token user, else the pool's user, else none when the lookup throws; `isLoading` ends false on every path; storage is cleared only for an undecodable token |
| AuthContext.AuthProvider.ValidateSession | lib/authContext.tsx:48-58 | nothing while loading; otherwise a set user whose stored tokens give no session is signed out, and a user that remains always has a session |
| AuthContext.AuthProvider.HandleSignOut | lib/authContext.tsx:75-78 | removes the three token keys and clears the user |
| AuthContext.UseAuth | lib/authContext.tsx:95-100 | outside a provider it throws "useAuth must be used within an AuthProvider"; inside, it returns the context |
| AuthCallback.Decide | app/auth/callback/page.tsx:16-34 | an `error` wins over a code; with neither, plain login; an exchange exactly when there is no error and a non-empty code |
| AuthCallback.RoutePath | app/auth/callback/page.tsx:20-49 | `/login?error=…` with `&error_description=…` only when there is a description; `/login?error=auth_failed&error_description=…` with the literal error; `/login`; `/home` |
| AuthCallback.FailureRoute | app/auth/callback/page.tsx:44-50 | `auth_failed`, with the thrown message or "Token exchange failed" as the description |
| AuthCallback.StoreTokens | app/auth/callback/page.tsx:39-41 | sets exactly the three token keys, a missing access token stored as "undefined", and keeps every other item |
| AuthCallback.HandleCallback | app/auth/callback/page.tsx:13-51 | a redirect sends nothing and changes nothing; an exchange posts the code with the stored verifier and removes that verifier exactly on an ok reply; a successful exchange sets the user and stores the tokens before going home; a failed one goes to the failure route and stores nothing |
| AuthCallback.StoredTokensRestoreUser | app/auth/callback/page.tsx:36-43 | the tokens stored after an exchange give back the same user on the next stored-token check while the ID token is unexpired |
| AcceptAndSign.SignerName | app/components/AcceptAndSignButton.tsx:35 | `name ?? username ?? email`: only an absent value falls through, so an empty name is kept |
| AcceptAndSign.InitiateOutcome | lib/adobeSign.ts:63-72 | an ok response settles to its signing URL; any other to the body's `error`, else "Failed to initiate Adobe Sign (status)" |
| AcceptAndSign.AcceptAndSignButton.constructor | app/components/AcceptAndSignButton.tsx:15-16 | not submitting, no error, no navigation |
| AcceptAndSign.AcceptAndSignButton.Disabled | app/components/AcceptAndSignButton.tsx:60 | disabled exactly while submitting |
| AcceptAndSign.AcceptAndSignButton.Label | app/components/AcceptAndSignButton.tsx:64-66 | "Preparing Adobe Sign..." while submitting, else "Accept & Sign Quote" |
| AcceptAndSign.AcceptAndSignButton.Start | app/components/AcceptAndSignButton.tsx:18-36 | without an e-mail: the sign-in error, no request, `isSubmitting` unchanged; otherwise submitting, error cleared and the request sent |
| AcceptAndSign.AcceptAndSignButton.Finish | app/components/AcceptAndSignButton.tsx:38-52 | a non-empty URL is followed and the button stays busy; no URL gives "No signing URL returned from Adobe Sign"; a failure shows its message; both free the button |
| AcceptAndSign.AcceptAndSignButton.HandleClick | app/components/AcceptAndSignButton.tsx:18-53 | the whole click: a request with the quote, e-mail and signer name exactly when the user has an e-mail; navigation exactly when the response settles to a non-empty URL; else the exact error text (no signing URL, or the thrown message) and a free button |
| AcceptAndSign.DistNeverGivesSigningUrl | app/components/AcceptAndSignButton.tsx:39-43 | no response of the compiled initiate handler settles to a signing URL |
| AcceptAndSign.SrcSuccessGivesSigningUrl | app/components/AcceptAndSignButton.tsx:39-40 | every 200 of the TypeScript initiate handler settles to its non-empty signing URL |
| AcceptAndSign.ClickAgainstDist | app/components/AcceptAndSignButton.tsx:38-52 | a click answered by the compiled handler never navigates and always ends with an error and a free button; after a 200 that error is "No signing URL returned from Adobe Sign" |
| StatusPage.FromBody | app/proposal/status/page.tsx:11-21 | the page data from a lambda body: the four forwarded fields, no name, dates, sender or recipients |
| StatusPage.StatusOutcome | lib/adobeSign.ts:105-114 | an ok response settles to its data; any other to the body's `error`, else "Failed to fetch status (status)" |
| StatusPage.StatusLabel | app/proposal/status/page.tsx:94 | the status when truthy, else "UNKNOWN"; never empty |
| StatusPage.StatusMessage | app/proposal/status/page.tsx:23-28 | the table's text for the four known statuses, else "Status updated. Please review in Adobe account." |
| StatusPage.FormatDateTime | app/proposal/status/page.tsx:30-35 | "-" for an absent or empty value, the value itself when it does not parse, else its local rendering |
| StatusPage.Recipients | app/proposal/status/page.tsx:97 | the recipients, else the empty list |
| StatusPage.AgreementName | app/proposal/status/page.tsx:116 | the agreement name when truthy, else "Quote Acceptance" |
| StatusPage.RecipientLine | app/proposal/status/page.tsx:138-143 | "name <email>" when there is a name, else "<email>" |
| StatusPage.SentBy | app/proposal/status/page.tsx:156-162 | "name <email>", "<email>", "name -" or "-" depending on which is known |
| StatusPage.StatusPoller.constructor | app/proposal/status/page.tsx:39-43 | the id is the query value or ""; no data, no error, loading, nothing seen |
| StatusPage.StatusPoller.Mount | app/proposal/status/page.tsx:39-52 | the id becomes the current query's value or ""; an empty id sets "Missing agreementId in URL.", ends loading and starts no polling; otherwise a new run starts polling with a `cancelled` flag of its own; the previous agreement's data and last seen status are kept either way |
| StatusPage.StatusPoller.Settle | app/proposal/status/page.tsx:54-81 | a settlement of a run whose flag is set changes nothing, even while a later run polls; otherwise an answer replaces the data, clears the error and is announced exactly when its status differs from the last seen; a failure sets the message (else "Failed to fetch agreement status") and keeps the data; loading ends either way |
| StatusPage.StatusPoller.Teardown | app/proposal/status/page.tsx:88-91 | sets the latest run's `cancelled` flag, stops polling and changes nothing else |
| StatusPage.IdRemovedKeepsOldData | app/proposal/status/page.tsx:45-92 | when the id disappears from the query after an answer, the page shows the missing-id error next to the old agreement's data |
| StatusPage.StaleFetchIsIgnored | app/proposal/status/page.tsx:53-91 | after mount, cleanup and a second mount, a late answer to the first run's request leaves the page empty and loading |
| StatusPage.LambdaDataHasNoRecipients | app/proposal/status/page.tsx:134-148 | the data from any lambda answer shows no recipients, the default name, "-" as sent date and "-" as sender |
| StatusPage.SrcAnswerShowsAgreementStatus | app/proposal/status/page.tsx:94 | a 200 of the TypeScript status handler shows the agreement's own status as the label |
| StatusPage.LambdaErrorsReachThePage | app/proposal/status/page.tsx:68-75 | when the browser hands the handler's error response to `fetch` (see "## Left out" on CORS), every error response of the compiled status handler reaches the page as its `error` text |

## Left out

- The Cognito SDK session branch of `getCurrentUser` (lib/cognito.ts:71-99) is an input: the user, or none, that the pool lookup settles to. The SDK's own sign-out call (lib/cognito.ts:29-32) is not modelled.
- `lib/authContext.tsx` imports `getUserFromStoredTokens`, which `lib/cognito.ts` does not export. It is modelled as the stored-token branch of `getCurrentUser` (`Cognito.GetUserFromStoredTokens`).
- Random bytes, the SHA-256 digest, the clock, `JSON.parse` of the JWT payload and of the request body, `encodeURIComponent`, `Date` parsing and `toLocaleString` are inputs or function parameters. The JWT signature is not checked by the source and is not modelled.
- CORS: the lambdas send `Access-Control-Allow-Origin` only on their 200 responses; their 400 and 500 responses carry no headers. The client calls the API Gateway endpoint from the browser with `Content-Type: application/json`, so the call is a preflighted cross-origin request. The model assumes the browser delivers the headerless error responses, because the page is served from the same origin or the gateway adds the CORS headers. Nothing in the repository shows either. Without that, `fetch` rejects with a `TypeError`, and the button and the status page show its message instead of the lambda's `error`. `AcceptAndSign.InitiateOutcome`, `StatusPage.StatusOutcome` and `StatusPage.LambdaErrorsReachThePage` rest on this assumption for non-2xx responses.
- Network, timing and concurrency: `fetch` is replaced by its reply. `setInterval` polling, the visibility listener, React re-render scheduling and logging are not modelled; only the state change of each event is.
- JSON values are modelled as absent or a string, with one exception: the ID token's `exp` claim is an integer. A JWT `exp` is a NumericDate, which may be fractional; the model takes it as a whole number of seconds, so a fractional expiry is not modelled. Fields of other JSON types (a numeric `quoteId`, an array body) are not modelled.
- The missing-endpoint error of `getApiEndpoint` in `lib/adobeSign.ts` is not modelled separately. It reaches the button and the page as an ordinary thrown `Error`, which `Finish` and `Settle` handle.
- Request headers (`Authorization`, `Content-Type`) are not modelled beyond the bearer token each request carries.
- StatusPage.StatusMessage: looks keys up in a map of the four entries only. In the source a status equal to an `Object.prototype` member name finds that member instead: `constructor` or `toString` gives a function, which React renders as nothing, and `__proto__` gives an object, on which rendering throws. Neither outcome is modelled; the model shows the default message for those statuses.
- The rendering pages, the navigation, the login page and `ProtectedRoute` hold no decision logic beyond a single guard and are not part of this model.
- No code in the repository deduplicates recipients, so none is modelled.

## Findings

| source | as written | input that shows it | evidently intended | confidence | as-written member | corrected member |
|---|---|---|---|---|---|---|
| amplify/functions/adobeSignInitiate/dist/index.js:84-87 | the compiled `createAgreement` returns `{agreementId, status}` with no `signingUrl`, while the button navigates only to a signing URL | any valid request, e.g. quoteId "Q1", signerEmail "a@b.co", with a successful create reply: the button shows "No signing URL returned from Adobe Sign" | return the first `esignUrl`, as the TypeScript source does | high, not executed | AcceptAndSign.DistNeverGivesSigningUrl | AcceptAndSign.SrcSuccessGivesSigningUrl |
| lib/cognito.ts:44 | the JWT payload segment, which is base64url, is decoded with `atob`, which takes only the standard alphabet | a payload whose encoding holds `-` or `_`, e.g. the byte 0xFF encodes as `_w` | map `-`/`_` back to `+`/`/` and restore the padding before `atob` | medium, not executed | Base64.AtobRejectsEncodedSegment | Base64.ToStandardInvertsToUrl |

For the second finding, the rest of the model takes the decoded claims as an input (`Cognito.DecodeResult`). A payload that `atob` rejects is modelled as `Undecodable`, which follows the catch branch at lib/cognito.ts:64-68.
