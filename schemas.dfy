/** The data model of auth_server/utils/schemas.py: token claims and token
    models, clients and their capability checks, grant contexts, sessions,
    authentication step results and the step and policy registries. */
module Schemas {
  import opened Wrappers
  import Tools

  // ---------------------------------------------------------------------------
  // Enumerations and constants. The constants module is not part of this
  // model: each enum lists the members the core and its tests name, and the
  // string values below (error codes, claim names, the bearer token type) are
  // the ones the cited standards fix, not values read from that module.

  datatype TokenType = Jwt | OtherTokenType(name: string)
  datatype ClientAuthnMethod = NoAuthn | SecretAuthn
  datatype ResponseType = Code | IdToken
  datatype GrantType = ClientCredentials | AuthorizationCode | RefreshToken
  datatype AuthnStatus = InProgressStatus | FailureStatus | SuccessStatus

  /** The OAuth error codes of section 5.2 and section 4.1.2.1 of RFC 6749. */
  datatype ErrorCode = InvalidClient | InvalidRequest | InvalidGrant | InvalidScope | AccessDenied

  function ErrorCodeValue(code: ErrorCode): string {
    match code
    case InvalidClient => "invalid_client"
    case InvalidRequest => "invalid_request"
    case InvalidGrant => "invalid_grant"
    case InvalidScope => "invalid_scope"
    case AccessDenied => "access_denied"
  }

  /** The exceptions raised by the schemas. */
  datatype SchemaError =
    | ValueError(message: string)
    | RuntimeError(message: string)
    | NotImplementedError
    | AuthnStepAlreadyExists
    | AuthnPolicyAlreadyExists

  const HttpSeeOther: int := 303
  /** `constants.BEARER_TOKEN_TYPE`, taken as the token type of section 7.1
      of RFC 6749 for bearer tokens (RFC 6750). */
  const BearerTokenType: string := "Bearer"

  // ---------------------------------------------------------------------------
  // Token

  /** The seven claims `to_jwt_payload` always sets (RFC 7519 names plus
      `client_id` and `scope`). */
  const JwtIdClaim: string := "jti"
  const SubjectClaim: string := "sub"
  const IssuerClaim: string := "iss"
  const IssuedAtClaim: string := "iat"
  const ExpirationClaim: string := "exp"
  const ClientIdClaim: string := "client_id"
  const ScopeClaim: string := "scope"
  const ReservedClaims: set<string> :=
    {JwtIdClaim, SubjectClaim, IssuerClaim, IssuedAtClaim, ExpirationClaim, ClientIdClaim, ScopeClaim}

  datatype ClaimValue = StringClaim(text: string) | IntClaim(number: int)
  type Payload = map<string, ClaimValue>

  datatype TokenInfo = TokenInfo(
    subject: string, issuer: string, issuedAt: int, expiration: int,
    clientId: string, scopes: seq<string>, id: string, additionalInfo: map<string, string>)

  /** `" ".join(scopes)`: empty for no scopes, otherwise the first scope,
      then a space before the rest whenever more follow. */
  function JoinScopes(scopes: seq<string>): (text: string)
    ensures |scopes| == 0 ==> text == ""
    ensures |scopes| >= 1 ==> |text| >= |scopes[0]| && text[..|scopes[0]|] == scopes[0]
    ensures |scopes| >= 2 ==> |text| > |scopes[0]| && text[|scopes[0]|] == ' '
    ensures |scopes| == 1 ==> text == scopes[0]
    decreases |scopes|
  {
    if |scopes| == 0 then ""
    else if |scopes| == 1 then scopes[0]
    else scopes[0] + " " + JoinScopes(scopes[1..])
  }

  /** `text.split(" ")`, the inverse a reader of the `scope` claim applies. */
  function SplitScopes(text: string): (parts: seq<string>)
    ensures |parts| >= 1
    decreases |text|
  {
    if |text| == 0 then [""]
    else
      var rest := SplitScopes(text[1..]);
      if text[0] == ' ' then [""] + rest else [[text[0]] + rest[0]] + rest[1..]
  }

  lemma {:induction false} SplitWord(word: string)
    requires ' ' !in word
    ensures SplitScopes(word) == [word]
    decreases |word|
  {
    if |word| > 0 {
      SplitWord(word[1..]);
      assert word == [word[0]] + word[1..];
    }
  }

  lemma {:induction false} SplitWordThenRest(word: string, rest: string)
    requires ' ' !in word
    ensures SplitScopes(word + " " + rest) == [word] + SplitScopes(rest)
    decreases |word|
  {
    var text := word + " " + rest;
    if |word| == 0 {
      assert text == [' '] + rest;
      assert text[1..] == rest;
    } else {
      assert text[1..] == word[1..] + " " + rest;
      SplitWordThenRest(word[1..], rest);
      assert [word[0]] + word[1..] == word;
    }
  }

  /** The `scope` claim loses nothing: splitting the joined scopes on spaces
      gives them back, in order, when no scope token contains a space (scope
      tokens never do, by section 3.3 of RFC 6749) and at least one is present. */
  lemma {:induction false} SplitJoinScopes(scopes: seq<string>)
    requires |scopes| >= 1
    requires forall i :: 0 <= i < |scopes| ==> ' ' !in scopes[i]
    ensures SplitScopes(JoinScopes(scopes)) == scopes
    decreases |scopes|
  {
    if |scopes| == 1 {
      SplitWord(scopes[0]);
    } else {
      SplitJoinScopes(scopes[1..]);
      SplitWordThenRest(scopes[0], JoinScopes(scopes[1..]));
      assert scopes == [scopes[0]] + scopes[1..];
    }
  }

  /** `TokenInfo.to_jwt_payload`: the additional claims first, then the seven
      reserved claims, which win on any clash. */
  function ToJwtPayload(info: TokenInfo): (payload: Payload)
    ensures payload.Keys == info.additionalInfo.Keys + ReservedClaims
    ensures payload[JwtIdClaim] == StringClaim(info.id)
    ensures payload[SubjectClaim] == StringClaim(info.subject)
    ensures payload[IssuerClaim] == StringClaim(info.issuer)
    ensures payload[IssuedAtClaim] == IntClaim(info.issuedAt)
    ensures payload[ExpirationClaim] == IntClaim(info.expiration)
    ensures payload[ClientIdClaim] == StringClaim(info.clientId)
    ensures payload[ScopeClaim] == StringClaim(JoinScopes(info.scopes))
    ensures forall k :: k in info.additionalInfo && k !in ReservedClaims ==>
              payload[k] == StringClaim(info.additionalInfo[k])
  {
    (map k | k in info.additionalInfo :: StringClaim(info.additionalInfo[k]))
    + map[JwtIdClaim := StringClaim(info.id),
          SubjectClaim := StringClaim(info.subject),
          IssuerClaim := StringClaim(info.issuer),
          IssuedAtClaim := IntClaim(info.issuedAt),
          ExpirationClaim := IntClaim(info.expiration),
          ClientIdClaim := StringClaim(info.clientId),
          ScopeClaim := StringClaim(JoinScopes(info.scopes))]
  }

  /** Whatever the additional claims, the reserved part of the payload is the
      one built from the token fields alone. */
  lemma AdditionalClaimsCannotOverrideReserved(info: TokenInfo, additional: map<string, string>)
    ensures var p := ToJwtPayload(info.(additionalInfo := additional));
            var q := ToJwtPayload(info.(additionalInfo := map[]));
            forall k :: k in ReservedClaims ==> k in p && k in q && p[k] == q[k]
  {
  }

  datatype BearerToken = BearerToken(id: string, info: TokenInfo, token: string)

  /** `jwt.encode(payload, key, algorithm)`, whose signing is not modelled. */
  type Signer = (Payload, string, string) -> string

  /** What minting a token takes from outside: the clock (`int(time.time())`),
      the fresh `uuid4` token id and the signer. */
  datatype MintEnv = MintEnv(now: int, tokenId: string, sign: Signer)

  /** `TokenModel` is the base class, whose `generate_token` raises; a
      `JWTTokenModel` adds the key and the signing algorithm. */
  datatype TokenModel =
    | BaseTokenModel(id: string, issuer: string, expiresIn: int)
    | JwtTokenModel(id: string, issuer: string, expiresIn: int,
                    keyId: string, key: string, signingAlgorithm: string)

  /** `generate_token`. */
  function GenerateToken(model: TokenModel, clientId: string, subject: string,
                         scopes: seq<string>, additionalClaims: map<string, string>,
                         env: MintEnv): (r: Result<BearerToken, SchemaError>)
    ensures r.Failure? <==> model.BaseTokenModel?
    ensures r.Failure? ==> r.error == NotImplementedError
    ensures r.Success? ==>
              var t := r.value;
              && t.id == t.info.id == env.tokenId
              && t.info.issuer == model.issuer
              && t.info.issuedAt == env.now
              && t.info.expiration == env.now + model.expiresIn
              && t.info.clientId == clientId
              && t.info.subject == subject
              && t.info.scopes == scopes
              && t.info.additionalInfo == additionalClaims
              && t.token == env.sign(ToJwtPayload(t.info), model.key, model.signingAlgorithm)
  {
    match model
    case BaseTokenModel(_, _, _) => Failure(NotImplementedError)
    case JwtTokenModel(_, issuer, expiresIn, _, key, algorithm) =>
      var info := TokenInfo(subject, issuer, env.now, env.now + expiresIn,
                            clientId, scopes, env.tokenId, additionalClaims);
      Success(BearerToken(info.id, info, env.sign(ToJwtPayload(info), key, algorithm)))
  }

  /** The signed payload of a minted token states a lifetime of exactly the
      model's `expires_in` and the model's issuer, and its scope claim splits
      back into the scopes asked for. */
  lemma GeneratedTokenClaims(model: TokenModel, clientId: string, subject: string,
                             scopes: seq<string>, additionalClaims: map<string, string>, env: MintEnv)
    requires model.JwtTokenModel?
    requires |scopes| >= 1 && forall i :: 0 <= i < |scopes| ==> ' ' !in scopes[i]
    ensures var t := GenerateToken(model, clientId, subject, scopes, additionalClaims, env).value;
            var p := ToJwtPayload(t.info);
            && p[ExpirationClaim].number - p[IssuedAtClaim].number == model.expiresIn
            && p[IssuerClaim] == StringClaim(model.issuer)
            && SplitScopes(p[ScopeClaim].text) == scopes
  {
    SplitJoinScopes(scopes);
  }

  /** A token model as the management API stores it. */
  datatype TokenModelUpsert = TokenModelUpsert(
    id: string, issuer: string, expiresIn: int, tokenType: TokenType, keyId: Option<string>)

  /** A token model as the management API receives it. */
  datatype TokenModelIn = TokenModelIn(
    id: string, issuer: string, expiresIn: int, tokenType: TokenType, keyId: Option<string>)

  /** Construction-time invariant of both: a JWT model names its key. */
  predicate JwtHasKey(tokenType: TokenType, keyId: Option<string>) {
    tokenType == Jwt ==> keyId.Some?
  }

  /** `TokenModelUpsert(...)` with its `__post_init__` check. */
  function NewTokenModelUpsert(id: string, issuer: string, expiresIn: int,
                               tokenType: TokenType, keyId: Option<string>): (r: Result<TokenModelUpsert, SchemaError>)
    ensures r.Failure? <==> tokenType == Jwt && keyId.None?
    ensures r.Failure? ==> r.error.ValueError?
    ensures r.Success? ==> (r.value == TokenModelUpsert(id, issuer, expiresIn, tokenType, keyId)
                            && JwtHasKey(r.value.tokenType, r.value.keyId))
  {
    if tokenType == Jwt && keyId.None? then Failure(ValueError("JWT tokens must be associated to a key"))
    else Success(TokenModelUpsert(id, issuer, expiresIn, tokenType, keyId))
  }

  /** `TokenModelIn(...)` with its `__post_init__` check. */
  function NewTokenModelIn(id: string, issuer: string, expiresIn: int,
                           tokenType: TokenType, keyId: Option<string>): (r: Result<TokenModelIn, SchemaError>)
    ensures r.Failure? <==> tokenType == Jwt && keyId.None?
    ensures r.Failure? ==> r.error.ValueError?
    ensures r.Success? ==> (r.value == TokenModelIn(id, issuer, expiresIn, tokenType, keyId)
                            && JwtHasKey(r.value.tokenType, r.value.keyId))
  {
    if tokenType == Jwt && keyId.None? then Failure(ValueError("JWT Token models must have a key_id"))
    else Success(TokenModelIn(id, issuer, expiresIn, tokenType, keyId))
  }

  /** `TokenModelIn.to_upsert`: builds the upsert model, whose own check runs again. */
  function ToUpsert(m: TokenModelIn): (r: Result<TokenModelUpsert, SchemaError>)
    ensures r.Failure? <==> m.tokenType == Jwt && m.keyId.None?
    ensures r.Success? ==> (r.value.id == m.id && r.value.issuer == m.issuer && r.value.expiresIn == m.expiresIn
                            && r.value.tokenType == m.tokenType && r.value.keyId == m.keyId)
  {
    NewTokenModelUpsert(m.id, m.issuer, m.expiresIn, m.tokenType, m.keyId)
  }

  /** Converting an input model that passed its own check never raises and
      copies every field. */
  lemma ToUpsertOfValidInput(id: string, issuer: string, expiresIn: int, tokenType: TokenType, keyId: Option<string>)
    requires NewTokenModelIn(id, issuer, expiresIn, tokenType, keyId).Success?
    ensures ToUpsert(NewTokenModelIn(id, issuer, expiresIn, tokenType, keyId).value)
            == Success(TokenModelUpsert(id, issuer, expiresIn, tokenType, keyId))
  {
  }

  // ---------------------------------------------------------------------------
  // Client

  datatype ClientBase = ClientBase(
    authnMethod: ClientAuthnMethod, redirectUris: seq<string>,
    responseTypes: seq<ResponseType>, grantTypes: seq<GrantType>,
    scopes: seq<string>, isPkceRequired: bool, extraParams: map<string, string>)

  /** A client to be stored; `id` comes from `generate_client_id`, `secret`
      from `generate_client_secret` for secret clients. */
  datatype ClientUpsert = ClientUpsert(base: ClientBase, tokenModelId: string, id: string, secret: Option<string>)

  /** `ClientUpsert(...)`: the id is drawn by the field's default factory,
      then `__post_init__` rejects a client that neither authenticates nor
      requires PKCE and draws a secret for a secret client. `idEntropy` and
      `secretEntropy` are the random draws the two generators consume. */
  method NewClientUpsert(base: ClientBase, tokenModelId: string, policy: Tools.LengthPolicy,
                         idEntropy: seq<nat>, secretEntropy: seq<nat>) returns (r: Result<ClientUpsert, SchemaError>)
    requires policy.Valid()
    requires |idEntropy| > policy.clientIdMaxLength && |secretEntropy| > policy.clientSecretMaxLength
    ensures r.Failure? <==> base.authnMethod == NoAuthn && !base.isPkceRequired
    ensures r.Failure? ==> r.error.ValueError?
    ensures r.Success? ==>
              && r.value.base == base && r.value.tokenModelId == tokenModelId
              && policy.clientIdMinLength <= |r.value.id| <= policy.clientIdMaxLength
              && Tools.AllAlphanumeric(r.value.id)
              && (r.value.secret.Some? <==> base.authnMethod == SecretAuthn)
              && (r.value.secret.Some? ==>
                    && policy.clientSecretMinLength <= |r.value.secret.value| <= policy.clientSecretMaxLength
                    && Tools.AllAlphanumeric(r.value.secret.value))
  {
    var id := Tools.GenerateClientId(policy, idEntropy);
    if base.authnMethod == NoAuthn && !base.isPkceRequired {
      return Failure(ValueError("Client without authentication method must require PCKE"));
    }
    var secret := None;
    if base.authnMethod == SecretAuthn {
      var generated := Tools.GenerateClientSecret(policy, secretEntropy);
      secret := Some(generated);
    }
    r := Success(ClientUpsert(base, tokenModelId, id, secret));
  }

  datatype Client = Client(
    base: ClientBase, id: string, tokenModel: TokenModel,
    hashedSecret: Option<string>, secret: Option<string>)

  /** `Client.is_authenticated`: `bcrypt.checkpw` against the stored hash. */
  function IsAuthenticated(client: Client, clientSecret: string, digest: Tools.BcryptDigest): (r: bool)
    ensures client.hashedSecret.None? ==> !r
    ensures client.hashedSecret.Some? ==> (r <==> Tools.CheckPw(clientSecret, client.hashedSecret.value, digest))
  {
    client.hashedSecret.Some? && Tools.CheckPw(clientSecret, client.hashedSecret.value, digest)
  }

  /** A client whose hash was drawn from a secret accepts that secret. */
  lemma IsAuthenticatedWithOwnSecret(client: Client, secret: string, salt: string, digest: Tools.BcryptDigest)
    requires |salt| == Tools.BcryptSaltLength
    requires client.hashedSecret == Some(Tools.HashSecret(secret, salt, digest))
    ensures IsAuthenticated(client, secret, digest)
  {
    Tools.CheckPwAcceptsOwnHash(secret, salt, digest);
  }

  /** `are_scopes_allowed`: `set(requested).issubset(set(self.scopes))`. */
  function AreScopesAllowed(client: Client, requestedScopes: seq<string>): (r: bool)
    ensures r <==> forall i :: 0 <= i < |requestedScopes| ==> requestedScopes[i] in client.base.scopes
  {
    SubsetOfElements(requestedScopes, client.base.scopes);
    (set s | s in requestedScopes) <= (set s | s in client.base.scopes)
  }

  lemma SubsetOfElements<T>(a: seq<T>, b: seq<T>)
    ensures (set x | x in a) <= (set x | x in b) <==> forall i :: 0 <= i < |a| ==> a[i] in b
  {
    var sa, sb := set x | x in a, set x | x in b;
    if forall i :: 0 <= i < |a| ==> a[i] in b {
      forall x | x in sa
        ensures x in sb
      {
        var i :| 0 <= i < |a| && a[i] == x;
      }
      assert sa <= sb;
    } else {
      var i :| 0 <= i < |a| && a[i] !in b;
      assert a[i] in sa && a[i] !in sb;
      assert !(sa <= sb);
    }
  }


  /** Only the set of requested scopes matters: order and repetition do not,
      and asking for nothing is always allowed. */
  lemma ScopesAllowedDependsOnSetOnly(client: Client, a: seq<string>, b: seq<string>)
    requires forall s :: s in a <==> s in b
    ensures AreScopesAllowed(client, a) == AreScopesAllowed(client, b)
    ensures AreScopesAllowed(client, [])
  {
    assert (set s | s in a) == (set s | s in b);
  }

  /** `owns_redirect_uri`: list membership. */
  function OwnsRedirectUri(client: Client, redirectUri: string): (r: bool)
    ensures r <==> exists i :: 0 <= i < |client.base.redirectUris| && client.base.redirectUris[i] == redirectUri
  {
    redirectUri in client.base.redirectUris
  }

  /** `is_response_type_allowed`: list membership. */
  function IsResponseTypeAllowed(client: Client, responseType: ResponseType): (r: bool)
    ensures r <==> exists i :: 0 <= i < |client.base.responseTypes| && client.base.responseTypes[i] == responseType
  {
    responseType in client.base.responseTypes
  }

  /** `is_grant_type_allowed`: list membership. */
  function IsGrantTypeAllowed(client: Client, grantType: GrantType): (r: bool)
    ensures r <==> exists i :: 0 <= i < |client.base.grantTypes| && client.base.grantTypes[i] == grantType
  {
    grantType in client.base.grantTypes
  }

  // ---------------------------------------------------------------------------
  // OAuth

  datatype GrantContext = GrantContext(
    client: Client, clientSecret: Option<string>, tokenModel: TokenModel,
    requestedScopes: seq<string>, redirectUri: Option<string>,
    authzCode: Option<string>, codeVerifier: Option<string>)

  datatype TokenResponse = TokenResponse(
    accessToken: string, expiresIn: int, tokenType: string,
    refreshToken: Option<string>, scope: Option<string>)

  // ---------------------------------------------------------------------------
  // Session

  datatype AuthnSession = AuthnSession(
    id: string, trackingId: string, correlationId: string, callbackId: Option<string>,
    clientId: string, redirectUri: string, requestedScopes: seq<string>, state: string,
    authPolicyId: string, nextAuthnStepId: string, userId: Option<string>,
    authzCode: Option<string>, authzCodeCreationTimestamp: Option<int>,
    codeChallenge: Option<string>, params: map<string, string>)

  // ---------------------------------------------------------------------------
  // Authentication steps and policies

  /** An HTTP response: a redirect to `url` with query parameters (the URL
      building itself is not modelled), or whatever a step returns while it
      waits for the user. */
  datatype Response =
    | RedirectResponse(url: string, params: seq<(string, string)>, statusCode: int)
    | InteractionResponse(content: string)

  datatype AuthnStepResult =
    | AuthnStepInProgressResult(response: Response)
    | AuthnStepFailureResult(errorDescription: string)
    | AuthnStepSuccessResult
  {
    function Status(): AuthnStatus {
      match this
      case AuthnStepInProgressResult(_) => InProgressStatus
      case AuthnStepFailureResult(_) => FailureStatus
      case AuthnStepSuccessResult => SuccessStatus
    }
  }

  /** `get_response` of the three step results. */
  function GetResponse(result: AuthnStepResult, session: AuthnSession): (r: Result<Response, SchemaError>)
    ensures result.AuthnStepInProgressResult? ==> r == Success(result.response)
    ensures result.AuthnStepFailureResult? ==>
              r == Success(RedirectResponse(session.redirectUri,
                                            [("error", ErrorCodeValue(AccessDenied)),
                                             ("error_description", result.errorDescription)],
                                            HttpSeeOther))
    ensures result.AuthnStepSuccessResult? ==>
              (r.Failure? <==> session.authzCode.None?)
              && (r.Failure? ==> r.error.RuntimeError?)
              && (r.Success? ==> r.value == RedirectResponse(session.redirectUri,
                                                            [("code", session.authzCode.value),
                                                             ("state", session.state)],
                                                            HttpSeeOther))
  {
    match result
    case AuthnStepInProgressResult(response) => Success(response)
    case AuthnStepFailureResult(description) =>
      Success(RedirectResponse(session.redirectUri,
                               [("error", ErrorCodeValue(AccessDenied)), ("error_description", description)],
                               HttpSeeOther))
    case AuthnStepSuccessResult =>
      if session.authzCode.None? then Failure(RuntimeError("The authorization code cannot be None"))
      else Success(RedirectResponse(session.redirectUri,
                                    [("code", session.authzCode.value), ("state", session.state)],
                                    HttpSeeOther))
  }

  /** A terminal outcome always reaches the client as a 303 redirect to the
      session's redirect URI, carrying a code and the state on success and an
      error on failure, never both. */
  lemma TerminalResultsRedirectToClient(result: AuthnStepResult, session: AuthnSession)
    requires !result.AuthnStepInProgressResult?
    requires GetResponse(result, session).Success?
    ensures var resp := GetResponse(result, session).value;
            && resp.RedirectResponse?
            && resp.url == session.redirectUri
            && resp.statusCode == HttpSeeOther
            && |resp.params| == 2
            && (resp.params[0].0 == "code" <==> result.Status() == SuccessStatus)
            && (resp.params[0].0 == "error" <==> result.Status() == FailureStatus)
  {
  }

  /** A step: its authentication function (the request argument is not
      modelled) and the steps that follow on success and on failure, None
      meaning terminal. */
  datatype AuthnStep = AuthnStep(
    id: string, authnFunc: AuthnSession -> AuthnStepResult,
    successNextStep: Option<AuthnStep>, failureNextStep: Option<AuthnStep>)

  /** A policy: its availability predicate (the request argument is not
      modelled), its first step and its optional extra-claims function. */
  datatype AuthnPolicy = AuthnPolicy(
    id: string, isAvailable: Client -> bool, firstStep: AuthnStep,
    getExtraTokenClaims: Option<AuthnSession -> map<string, string>>)

  const DefaultFailureStepId: string := "default_failure_step_42"

  /** `default_failure_authn_func`. */
  function DefaultFailureAuthnFunc(session: AuthnSession): (r: AuthnStepResult)
    ensures r.Status() == FailureStatus
    ensures r.AuthnStepFailureResult? && r.errorDescription == "access denied"
  {
    AuthnStepFailureResult("access denied")
  }

  const DefaultFailureStep: AuthnStep := AuthnStep(DefaultFailureStepId, DefaultFailureAuthnFunc, None, None)

  /** The default failure step is terminal both ways and always answers with
      an access-denied redirect to the session's redirect URI. */
  lemma DefaultFailureStepDenies(session: AuthnSession)
    ensures DefaultFailureStep.successNextStep.None? && DefaultFailureStep.failureNextStep.None?
    ensures DefaultFailureStep.authnFunc(session).Status() == FailureStatus
    ensures GetResponse(DefaultFailureStep.authnFunc(session), session)
            == Success(RedirectResponse(session.redirectUri,
                                        [("error", "access_denied"), ("error_description", "access denied")],
                                        HttpSeeOther))
  {
  }

  /** The process-wide `AUTHN_STEPS` and `AUTHN_POLICIES` dictionaries: each
      id is registered at most once. */
  class AuthnRegistry {
    var steps: map<string, AuthnStep>
    var policies: map<string, AuthnPolicy>

    /** Each entry is filed under its own id, and the default failure step
        stays registered. */
    ghost predicate Valid()
      reads this
    {
      && (forall id :: id in steps ==> steps[id].id == id)
      && (forall id :: id in policies ==> policies[id].id == id)
      && DefaultFailureStepId in steps
    }

    /** The registries as importing the module leaves them: empty but for
        the default failure step. */
    constructor ()
      ensures Valid()
      ensures steps == map[DefaultFailureStepId := DefaultFailureStep]
      ensures policies == map[]
    {
      steps := map[DefaultFailureStepId := DefaultFailureStep];
      policies := map[];
    }

    /** `AuthnStep.__post_init__`. */
    method RegisterStep(step: AuthnStep) returns (r: Option<SchemaError>)
      requires Valid()
      modifies this
      ensures Valid()
      ensures r.None? <==> step.id !in old(steps)
      ensures r.Some? ==> r.value == AuthnStepAlreadyExists
      ensures step.id == DefaultFailureStepId ==> r.Some?
      ensures r.None? ==> forall id :: id in old(steps) ==> old(steps)[id].id != step.id
      ensures steps == if r.None? then old(steps)[step.id := step] else old(steps)
      ensures policies == old(policies)
    {
      if step.id in steps {
        return Some(AuthnStepAlreadyExists);
      }
      steps := steps[step.id := step];
      r := None;
    }

    /** `AuthnPolicy.__post_init__`. */
    method RegisterPolicy(policy: AuthnPolicy) returns (r: Option<SchemaError>)
      requires Valid()
      modifies this
      ensures Valid()
      ensures r.None? <==> policy.id !in old(policies)
      ensures r.Some? ==> r.value == AuthnPolicyAlreadyExists
      ensures r.None? ==> forall id :: id in old(policies) ==> old(policies)[id].id != policy.id
      ensures policies == if r.None? then old(policies)[policy.id := policy] else old(policies)
      ensures steps == old(steps)
    {
      if policy.id in policies {
        return Some(AuthnPolicyAlreadyExists);
      }
      policies := policies[policy.id := policy];
      r := None;
    }
  }
}
