/** The session and PKCE helpers of `lib/cognito.ts`: the code verifier and S256 challenge of
    RFC 7636, the hosted-UI authorize request, the stored-token session check, the
    authorization-code exchange and sign-out. Storage is a `Common.Storage`; the random bytes,
    the SHA-256 digest, the clock, decoded JWT claims and the token endpoint's reply are inputs. */
module Cognito {
  import opened Common
  import Base64

  const PkceVerifierKey: string := "cognito_pkce_verifier"
  const IdTokenKey: string := "idToken"
  const AccessTokenKey: string := "accessToken"
  const RefreshTokenKey: string := "refreshToken"

  /** The three keys that sign-out and a decode failure remove. */
  const TokenKeys: set<string> := {IdTokenKey, AccessTokenKey, RefreshTokenKey}

  /** `AuthUser`. `username` can be absent at run time (`preferred_username || sub` with neither
      claim), and so can `accessToken` (a token reply without `access_token`). */
  datatype AuthUser = AuthUser(
    username: Option<string>,
    email: string,
    name: Option<string>,
    idToken: string,
    accessToken: Option<string>,
    refreshToken: string)

  /** The claims of an ID token's payload that the code reads. */
  datatype Claims = Claims(
    exp: Option<int>,
    name: Option<string>,
    givenName: Option<string>,
    preferredUsername: Option<string>,
    email: Option<string>,
    sub: Option<string>)

  /** `JSON.parse(atob(idToken.split(".")[1]))` either yields claims or throws. */
  datatype DecodeResult = Decoded(claims: Claims) | Undecodable(error: Thrown)

  // ---------------------------------------------------------------------------
  // Code verifier (section 4.1 of RFC 7636).

  const UpperLetters: string := "ABCDEFGHIJKLMNOPQRSTUVWXYZ"
  const LowerLetters: string := "abcdefghijklmnopqrstuvwxyz"
  const DecimalDigits: string := "0123456789"

  /** The `chars` of `generateRandomString`: the same 66 characters, in the same order. */
  const VerifierAlphabet: string := UpperLetters + LowerLetters + DecimalDigits + "-._~"

  /** `unreserved` of RFC 3986: ALPHA / DIGIT / "-" / "." / "_" / "~". */
  predicate IsUnreserved(c: char)
  {
    ('A' <= c <= 'Z') || ('a' <= c <= 'z') || ('0' <= c <= '9') || c == '-' || c == '.' || c == '_' || c == '~'
  }

  /** A code verifier as section 4.1 of RFC 7636 requires: 43 to 128 unreserved characters. */
  predicate IsCodeVerifier(s: string)
  {
    43 <= |s| <= 128 && forall i :: 0 <= i < |s| ==> IsUnreserved(s[i])
  }

  lemma UpperLetterAt(k: int)
    requires 0 <= k < 26
    ensures UpperLetters[k] as int == 'A' as int + k
  {
  }

  lemma LowerLetterAt(k: int)
    requires 0 <= k < 26
    ensures LowerLetters[k] as int == 'a' as int + k
  {
  }

  lemma DecimalDigitAt(k: int)
    requires 0 <= k < 10
    ensures DecimalDigits[k] as int == '0' as int + k
  {
  }

  /** The 66 characters of the verifier alphabet are exactly the unreserved characters. */
  lemma VerifierAlphabetIsUnreserved()
    ensures |VerifierAlphabet| == 66
    ensures forall i :: 0 <= i < |VerifierAlphabet| ==> IsUnreserved(VerifierAlphabet[i])
    ensures forall c :: IsUnreserved(c) ==> c in VerifierAlphabet
  {
    forall i | 0 <= i < 66
      ensures IsUnreserved(VerifierAlphabet[i])
    {
      if i < 26 {
        UpperLetterAt(i);
        assert VerifierAlphabet[i] == UpperLetters[i];
      } else if i < 52 {
        LowerLetterAt(i - 26);
        assert VerifierAlphabet[i] == LowerLetters[i - 26];
      } else if i < 62 {
        DecimalDigitAt(i - 52);
        assert VerifierAlphabet[i] == DecimalDigits[i - 52];
      } else {
        assert VerifierAlphabet[i] == "-._~"[i - 62];
      }
    }
    forall c | IsUnreserved(c)
      ensures c in VerifierAlphabet
    {
      if 'A' <= c <= 'Z' {
        var k := c as int - 'A' as int;
        UpperLetterAt(k);
        assert VerifierAlphabet[k] == c;
      } else if 'a' <= c <= 'z' {
        var k := c as int - 'a' as int;
        LowerLetterAt(k);
        assert VerifierAlphabet[26 + k] == c;
      } else if '0' <= c <= '9' {
        var k := c as int - '0' as int;
        DecimalDigitAt(k);
        assert VerifierAlphabet[52 + k] == c;
      } else {
        assert VerifierAlphabet[62..] == "-._~";
      }
    }
  }

  /** `generateRandomString(length)`: each random byte picks `chars[byte % chars.length]`. */
  method GenerateRandomString(length: nat, randomValues: seq<byte>) returns (result: string)
    requires |randomValues| == length
    ensures |result| == length
    ensures forall i :: 0 <= i < length ==> result[i] == VerifierAlphabet[randomValues[i] % 66]
    ensures forall i :: 0 <= i < length ==> IsUnreserved(result[i])
  {
    result := "";
    for index := 0 to length
      invariant |result| == index
      invariant forall i :: 0 <= i < index ==> result[i] == VerifierAlphabet[randomValues[i] % 66]
    {
      result := result + [VerifierAlphabet[randomValues[index] % |VerifierAlphabet|]];
    }
    DrawnCharsUnreserved(result, randomValues);
  }

  /** Characters drawn from the alphabet by byte value are unreserved. */
  lemma DrawnCharsUnreserved(s: string, values: seq<byte>)
    requires |s| == |values|
    requires forall i :: 0 <= i < |s| ==> s[i] == VerifierAlphabet[values[i] % 66]
    ensures forall i :: 0 <= i < |s| ==> IsUnreserved(s[i])
  {
    VerifierAlphabetIsUnreserved();
    forall i | 0 <= i < |s|
      ensures IsUnreserved(s[i])
    {
      var k := values[i] % 66;
      assert IsUnreserved(VerifierAlphabet[k]);
    }
  }

  /** The login flow draws 96 random bytes, so its verifier is a valid RFC 7636 verifier. */
  method GenerateVerifier(randomValues: seq<byte>) returns (verifier: string)
    requires |randomValues| == 96
    ensures |verifier| == 96
    ensures IsCodeVerifier(verifier)
    ensures forall i :: 0 <= i < 96 ==> verifier[i] == VerifierAlphabet[randomValues[i] % 66]
  {
    verifier := GenerateRandomString(96, randomValues);
  }

  // ---------------------------------------------------------------------------
  // S256 challenge (section 4.2 and Appendix A of RFC 7636).

  /** `btoa(binary)` for a string whose characters all lie below 256. */
  function Btoa(binary: string): string
    requires forall i :: 0 <= i < |binary| ==> binary[i] as int < 256
  {
    Base64.Encode(seq(|binary|, i requires 0 <= i < |binary| => binary[i] as int as byte))
  }

  /** `base64UrlEncode(buffer)`: the bytes become a binary string, then standard base 64 with
      `+`, `/` replaced and the trailing `=` removed. */
  method Base64UrlEncode(bytes: seq<byte>) returns (encoded: string)
    ensures encoded == Base64.ToUrl(Base64.Encode(bytes))
  {
    var binary := "";
    for index := 0 to |bytes|
      invariant |binary| == index
      invariant forall k :: 0 <= k < index ==> binary[k] as int == bytes[k]
    {
      binary := binary + [bytes[index] as char];
    }
    assert seq(|binary|, i requires 0 <= i < |binary| => binary[i] as int as byte) == bytes;
    encoded := Base64.ToUrl(Btoa(binary));
  }

  /** `new TextEncoder().encode(verifier)` for a verifier of ASCII characters. */
  function AsciiBytes(s: string): (b: seq<byte>)
    requires forall i :: 0 <= i < |s| ==> IsUnreserved(s[i])
    ensures |b| == |s|
  {
    seq(|s|, i requires 0 <= i < |s| => AsciiByte(s[i]))
  }

  function AsciiByte(c: char): (b: byte)
    requires IsUnreserved(c)
    ensures b == c as int
  {
    c as int
  }

  /** The challenge for a verifier: base64url (no padding) of its SHA-256 digest. */
  function S256Challenge(verifier: string, sha256: seq<byte> -> seq<byte>): (challenge: string)
    requires forall i :: 0 <= i < |verifier| ==> IsUnreserved(verifier[i])
    ensures |sha256(AsciiBytes(verifier))| == 32 ==> |challenge| == 43
    ensures '+' !in challenge && '/' !in challenge && '=' !in challenge
    ensures Base64.ToStandard(challenge) == Base64.Encode(sha256(AsciiBytes(verifier)))
  {
    var digest := sha256(AsciiBytes(verifier));
    Base64.UrlEncodingShape(digest);
    Base64.ToStandardInvertsToUrl(digest);
    Base64.ToUrl(Base64.Encode(digest))
  }

  // ---------------------------------------------------------------------------
  // The hosted-UI authorize request.

  /** The `NEXT_PUBLIC_COGNITO_*` and `NEXT_PUBLIC_IDENTITY_PROVIDER` settings. */
  datatype CognitoEnv = CognitoEnv(
    domain: Option<string>,
    region: Option<string>,
    clientId: Option<string>,
    redirectUri: Option<string>,
    scopes: Option<string>,
    identityProvider: Option<string>)

  /** The query and form fields the hosted UI's endpoints take. */
  datatype Field =
    | ClientIdField | ResponseTypeField | ScopeField | RedirectUriField | IdentityProviderField
    | CodeChallengeMethodField | CodeChallengeField | GrantTypeField | CodeField | CodeVerifierField

  /** The name a field is sent under. */
  function FieldName(f: Field): string
  {
    match f
    case ClientIdField => "client_id"
    case ResponseTypeField => "response_type"
    case ScopeField => "scope"
    case RedirectUriField => "redirect_uri"
    case IdentityProviderField => "identity_provider"
    case CodeChallengeMethodField => "code_challenge_method"
    case CodeChallengeField => "code_challenge"
    case GrantTypeField => "grant_type"
    case CodeField => "code"
    case CodeVerifierField => "code_verifier"
  }

  /** A request to one of the hosted UI's endpoints, its query or form fields in order. */
  datatype EndpointRequest = EndpointRequest(url: string, params: seq<(Field, string)>)

  function HostedUIBase(env: CognitoEnv): string
  {
    "https://" + JsText(env.domain) + ".auth." + JsText(env.region) + ".amazoncognito.com"
  }

  /** The value of field `key` in a list of fields, if present. */
  function ParamValue(params: seq<(Field, string)>, key: Field): Option<string>
  {
    if params == [] then None
    else if params[0].0 == key then Some(params[0].1)
    else ParamValue(params[1..], key)
  }

  /** The first field sent under `key` is the one a reader of the query finds. */
  lemma {:induction false} ParamValueFirst(params: seq<(Field, string)>, key: Field, i: nat)
    requires i < |params| && params[i].0 == key
    requires forall j :: 0 <= j < i ==> params[j].0 != key
    ensures ParamValue(params, key) == Some(params[i].1)
  {
    if i > 0 {
      assert params[1..][i - 1] == params[i];
      ParamValueFirst(params[1..], key, i - 1);
    }
  }

  /** The authorize query, field by field, in the order the source sends them. */
  function AuthorizeQuery(clientId: string, scope: string, redirectUri: string, provider: string, challenge: string)
    : (params: seq<(Field, string)>)
    ensures ParamValue(params, ClientIdField) == Some(clientId)
    ensures ParamValue(params, ResponseTypeField) == Some("code")
    ensures ParamValue(params, ScopeField) == Some(scope)
    ensures ParamValue(params, RedirectUriField) == Some(redirectUri)
    ensures ParamValue(params, IdentityProviderField) == Some(provider)
    ensures ParamValue(params, CodeChallengeMethodField) == Some("S256")
    ensures ParamValue(params, CodeChallengeField) == Some(challenge)
  {
    var p := [
      (ClientIdField, clientId),
      (ResponseTypeField, "code"),
      (ScopeField, scope),
      (RedirectUriField, redirectUri),
      (IdentityProviderField, provider),
      (CodeChallengeMethodField, "S256"),
      (CodeChallengeField, challenge) ];
    ParamValueFirst(p, ClientIdField, 0);
    ParamValueFirst(p, ResponseTypeField, 1);
    ParamValueFirst(p, ScopeField, 2);
    ParamValueFirst(p, RedirectUriField, 3);
    ParamValueFirst(p, IdentityProviderField, 4);
    ParamValueFirst(p, CodeChallengeMethodField, 5);
    ParamValueFirst(p, CodeChallengeField, 6);
    p
  }

  /** The query of the authorize URL: the configured values, with the scope's double quotes
      stripped and the documented defaults for scope and identity provider. */
  function AuthorizeParams(env: CognitoEnv, challenge: string): (params: seq<(Field, string)>)
    ensures ParamValue(params, ResponseTypeField) == Some("code")
    ensures ParamValue(params, CodeChallengeMethodField) == Some("S256")
    ensures ParamValue(params, CodeChallengeField) == Some(challenge)
    ensures ParamValue(params, ScopeField).Some? && '"' !in ParamValue(params, ScopeField).value
    ensures !Truthy(env.scopes) ==> ParamValue(params, ScopeField) == Some("openid profile email")
    ensures Truthy(env.scopes) ==> ParamValue(params, ScopeField) == Some(RemoveAll(env.scopes.value, '"'))
    ensures !Truthy(env.identityProvider) ==> ParamValue(params, IdentityProviderField) == Some("AzureAD")
    ensures Truthy(env.identityProvider) ==> ParamValue(params, IdentityProviderField) == env.identityProvider
    ensures ParamValue(params, ClientIdField) == Some(OrElse(env.clientId, ""))
    ensures ParamValue(params, RedirectUriField) == Some(OrElse(env.redirectUri, ""))
  {
    RemoveAllAbsent("openid profile email", '"');
    AuthorizeQuery(OrElse(env.clientId, ""), RemoveAll(OrElse(env.scopes, "openid profile email"), '"'),
                   OrElse(env.redirectUri, ""), OrElse(env.identityProvider, "AzureAD"), challenge)
  }

  /** `getHostedUILoginUrl`: a fresh verifier is kept in session storage under its key and the
      authorize request carries its S256 challenge. */
  method GetHostedUILoginUrl(env: CognitoEnv, randomValues: seq<byte>, sha256: seq<byte> -> seq<byte>, session: Storage)
    returns (request: EndpointRequest)
    requires |randomValues| == 96
    modifies session
    ensures PkceVerifierKey in session.items && IsCodeVerifier(session.items[PkceVerifierKey])
    ensures |session.items[PkceVerifierKey]| == 96
    ensures forall i :: 0 <= i < 96 ==> session.items[PkceVerifierKey][i] == VerifierAlphabet[randomValues[i] % 66]
    ensures session.items == old(session.items)[PkceVerifierKey := session.items[PkceVerifierKey]]
    ensures request.url == HostedUIBase(env) + "/oauth2/authorize"
    ensures request.params == AuthorizeParams(env, S256Challenge(session.items[PkceVerifierKey], sha256))
  {
    var verifier := GenerateVerifier(randomValues);
    session.SetItem(PkceVerifierKey, verifier);
    var challenge := S256Challenge(verifier, sha256);
    request := EndpointRequest(HostedUIBase(env) + "/oauth2/authorize", AuthorizeParams(env, challenge));
  }

  // ---------------------------------------------------------------------------
  // Claims and the user derived from them.

  /** `email.split("@")[0]`: the text before the first `@`, or all of it. */
  function EmailLocalPart(email: string): (r: string)
    ensures |r| <= |email| && r == email[..|r|]
    ensures '@' !in r
    ensures |r| < |email| ==> email[|r|] == '@'
  {
    if email == [] || email[0] == '@' then [] else [email[0]] + EmailLocalPart(email[1..])
  }

  /** The display name: the first truthy of `name`, `given_name`, `preferred_username`, then the
      local part of a truthy `email`, else absent. */
  function DisplayName(c: Claims): (r: Option<string>)
    ensures r.None? <==> !Truthy(c.name) && !Truthy(c.givenName) && !Truthy(c.preferredUsername) && !Truthy(c.email)
    ensures Truthy(c.name) ==> r == c.name
    ensures !Truthy(c.name) && Truthy(c.givenName) ==> r == c.givenName
    ensures !Truthy(c.name) && !Truthy(c.givenName) && Truthy(c.preferredUsername) ==> r == c.preferredUsername
    ensures !Truthy(c.name) && !Truthy(c.givenName) && !Truthy(c.preferredUsername) && Truthy(c.email) ==>
              r == Some(EmailLocalPart(c.email.value))
  {
    Or(Or(Or(c.name, c.givenName), c.preferredUsername),
       if Truthy(c.email) then Some(EmailLocalPart(c.email.value)) else None)
  }

  /** The user both call sites build from claims and tokens. */
  function UserFromClaims(c: Claims, idToken: string, accessToken: Option<string>, refreshToken: Option<string>): (u: AuthUser)
    ensures u.username == (if Truthy(c.preferredUsername) then c.preferredUsername else c.sub)
    ensures u.email == (if Truthy(c.email) then c.email.value else "")
    ensures u.refreshToken == (if Truthy(refreshToken) then refreshToken.value else "")
    ensures u.name == DisplayName(c) && u.idToken == idToken && u.accessToken == accessToken
  {
    AuthUser(
      username := Or(c.preferredUsername, c.sub),
      email := OrElse(c.email, ""),
      name := DisplayName(c),
      idToken := idToken,
      accessToken := accessToken,
      refreshToken := OrElse(refreshToken, ""))
  }

  /** `decoded.exp && decoded.exp > Math.floor(Date.now() / 1000)` */
  predicate Unexpired(exp: Option<int>, nowMs: nat)
  {
    exp.Some? && exp.value != 0 && exp.value > nowMs / 1000
  }

  /** The session is live exactly when the expiry instant, in milliseconds, lies strictly after now. */
  lemma UnexpiredMeansExpiryAfterNow(exp: Option<int>, nowMs: nat)
    ensures Unexpired(exp, nowMs) <==> exp.Some? && exp.value * 1000 > nowMs
  {
    var q := nowMs / 1000;
    assert nowMs == 1000 * q + nowMs % 1000;
    if exp.Some? {
      var e := exp.value;
      if e > q {
        assert e * 1000 >= (q + 1) * 1000;
      } else {
        assert e * 1000 <= q * 1000;
      }
    }
  }

  // ---------------------------------------------------------------------------
  // The stored-token branch of `getCurrentUser`.

  /** What the stored tokens say: a live session, nothing usable, or a token that could not be
      decoded (which also clears the stored tokens). */
  datatype StoredCheck = Session(user: AuthUser) | NoSession | Corrupt

  function CheckStoredTokens(idToken: Option<string>, accessToken: Option<string>, refreshToken: Option<string>,
                             decoded: DecodeResult, nowMs: nat): (r: StoredCheck)
    ensures r.Session? <==>
              Truthy(idToken) && Truthy(accessToken) && decoded.Decoded? && Unexpired(decoded.claims.exp, nowMs)
    ensures r.Corrupt? <==> Truthy(idToken) && Truthy(accessToken) && decoded.Undecodable?
    ensures r.Session? ==> r.user == UserFromClaims(decoded.claims, idToken.value, accessToken, refreshToken)
    ensures r.Session? ==> r.user.idToken != "" && r.user.accessToken.Some? && r.user.accessToken.value != ""
  {
    if !(Truthy(idToken) && Truthy(accessToken)) then NoSession
    else match decoded
      case Undecodable(_) => Corrupt
      case Decoded(c) =>
        if Unexpired(c.exp, nowMs) then Session(UserFromClaims(c, idToken.value, accessToken, refreshToken))
        else NoSession
  }

  /** The stored-token branch alone (what `lib/authContext.tsx` imports as `getUserFromStoredTokens`). */
  method GetUserFromStoredTokens(local: Storage, decoded: DecodeResult, nowMs: nat) returns (user: Option<AuthUser>)
    modifies local
    ensures var check := CheckStoredTokens(old(local.GetItem(IdTokenKey)), old(local.GetItem(AccessTokenKey)),
                                           old(local.GetItem(RefreshTokenKey)), decoded, nowMs);
            && (check.Session? ==> user == Some(check.user))
            && (!check.Session? ==> user == None)
            && local.items == if check.Corrupt? then old(local.items) - TokenKeys else old(local.items)
  {
    var check := CheckStoredTokens(local.GetItem(IdTokenKey), local.GetItem(AccessTokenKey),
                                   local.GetItem(RefreshTokenKey), decoded, nowMs);
    user := None;
    match check {
      case Session(u) =>
        user := Some(u);
      case Corrupt =>
        local.RemoveItem(IdTokenKey);
        local.RemoveItem(AccessTokenKey);
        local.RemoveItem(RefreshTokenKey);
      case NoSession =>
    }
  }

  /** `getCurrentUser`: the stored tokens first, else the user pool's own session (an input). */
  method GetCurrentUser(local: Storage, decoded: DecodeResult, nowMs: nat, poolUser: Option<AuthUser>)
    returns (user: Option<AuthUser>)
    modifies local
    ensures var check := CheckStoredTokens(old(local.GetItem(IdTokenKey)), old(local.GetItem(AccessTokenKey)),
                                           old(local.GetItem(RefreshTokenKey)), decoded, nowMs);
            && user == (if check.Session? then Some(check.user) else poolUser)
            && local.items == if check.Corrupt? then old(local.items) - TokenKeys else old(local.items)
  {
    user := GetUserFromStoredTokens(local, decoded, nowMs);
    if user.None? {
      user := poolUser;
    }
  }

  /** `signOut`: removes the three token keys and nothing else (the pool's own sign-out is not modelled). */
  method SignOut(local: Storage)
    modifies local
    ensures local.items == old(local.items) - TokenKeys
  {
    local.RemoveItem(IdTokenKey);
    local.RemoveItem(AccessTokenKey);
    local.RemoveItem(RefreshTokenKey);
  }

  // ---------------------------------------------------------------------------
  // `exchangeCodeForToken`.

  /** The JSON fields of the token endpoint's reply (section 5.1 and 5.2 of RFC 6749). */
  datatype TokenBody = TokenBody(
    error: Option<string>,
    errorDescription: Option<string>,
    idToken: Option<string>,
    accessToken: Option<string>,
    refreshToken: Option<string>)

  /** The HTTP reply: `response.ok` and the parsed body, or a rejected `fetch` / `response.json()`. */
  datatype TokenReply = Replied(ok: bool, body: TokenBody) | NoReply(error: Thrown)

  const ExchangeFailedText: string := "Failed to exchange code for token"
  const MissingIdTokenText: string := "Cannot read properties of undefined (reading 'split')"

  /** The error text of a refused exchange: `error_description`, else `error`, else a fixed text. */
  function ExchangeErrorText(body: TokenBody): (text: string)
    ensures Truthy(body.errorDescription) ==> text == body.errorDescription.value
    ensures !Truthy(body.errorDescription) && Truthy(body.error) ==> text == body.error.value
    ensures !Truthy(body.errorDescription) && !Truthy(body.error) ==> text == ExchangeFailedText
    ensures text != ""
  {
    OrElse(Or(body.errorDescription, body.error), ExchangeFailedText)
  }

  /** The form fields posted to the token endpoint. */
  function TokenParams(env: CognitoEnv, code: string, storedVerifier: Option<string>): (params: seq<(Field, string)>)
    ensures ParamValue(params, GrantTypeField) == Some("authorization_code")
    ensures ParamValue(params, ClientIdField) == Some(OrElse(env.clientId, ""))
    ensures ParamValue(params, CodeField) == Some(code)
    ensures ParamValue(params, CodeVerifierField) == Some(OrElse(storedVerifier, ""))
    ensures ParamValue(params, RedirectUriField) == Some(OrElse(env.redirectUri, ""))
  {
    var params := [
      (GrantTypeField, "authorization_code"),
      (ClientIdField, OrElse(env.clientId, "")),
      (CodeField, code),
      (CodeVerifierField, OrElse(storedVerifier, "")),
      (RedirectUriField, OrElse(env.redirectUri, "")) ];
    ParamValueFirst(params, GrantTypeField, 0);
    ParamValueFirst(params, ClientIdField, 1);
    ParamValueFirst(params, CodeField, 2);
    ParamValueFirst(params, CodeVerifierField, 3);
    ParamValueFirst(params, RedirectUriField, 4);
    params
  }

  /** What the exchange returns or throws, given the reply and the decoded `id_token` payload. */
  function ExchangeResult(reply: TokenReply, decoded: DecodeResult): (r: Result<AuthUser>)
    ensures reply.NoReply? ==> r == Failed(reply.error)
    ensures reply.Replied? && !reply.ok ==> r == Failed(Error(ExchangeErrorText(reply.body)))
    ensures r.Ok? <==> reply.Replied? && reply.ok && reply.body.idToken.Some? && decoded.Decoded?
    ensures r.Ok? ==> r.value == UserFromClaims(decoded.claims, reply.body.idToken.value,
                                                reply.body.accessToken, reply.body.refreshToken)
  {
    match reply
    case NoReply(e) => Failed(e)
    case Replied(ok, body) =>
      if !ok then Failed(Error(ExchangeErrorText(body)))
      else if body.idToken.None? then Failed(Error(MissingIdTokenText))
      else match decoded
        case Undecodable(e) => Failed(e)
        case Decoded(c) => Ok(UserFromClaims(c, body.idToken.value, body.accessToken, body.refreshToken))
  }

  /** `exchangeCodeForToken(code)`: posts the code with the stored verifier; the verifier is
      removed once the endpoint answers `ok`, and kept when the exchange is refused. */
  method ExchangeCodeForToken(env: CognitoEnv, code: string, reply: TokenReply, decoded: DecodeResult, session: Storage)
    returns (request: EndpointRequest, result: Result<AuthUser>)
    modifies session
    ensures request == EndpointRequest(HostedUIBase(env) + "/oauth2/token",
                                       TokenParams(env, code, old(session.GetItem(PkceVerifierKey))))
    ensures result == ExchangeResult(reply, decoded)
    ensures session.items == if reply.Replied? && reply.ok then old(session.items) - {PkceVerifierKey}
                             else old(session.items)
  {
    request := EndpointRequest(HostedUIBase(env) + "/oauth2/token", TokenParams(env, code, session.GetItem(PkceVerifierKey)));
    if reply.Replied? && reply.ok {
      session.RemoveItem(PkceVerifierKey);
    }
    result := ExchangeResult(reply, decoded);
  }
}
