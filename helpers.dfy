/** The request dependencies and grant handlers of auth_server/utils/helpers.py.
    The stores behind `client_manager` and `session_manager` are maps passed
    in; every raised exception is a `Failure` of `HandlerError`. */
module Helpers {
  import opened Wrappers
  import opened Schemas
  import Tools

  const HttpBadRequest: int := 400
  const HttpUnauthorized: int := 401
  const HttpForbidden: int := 403

  datatype HandlerError =
    /** `exceptions.HTTPException`: the OAuth error response. */
    | HttpException(statusCode: int, error: ErrorCode, description: string)
    /** A query or path parameter that breaks its declared length bounds:
        the web framework answers 422 before the dependency runs. */
    | RequestValidationError
    /** This model's name for the exception the session store raises on an
        unknown authorization code (the callback lookup catches it as
        `exceptions.SessionInfoDoesNotExist`); the token handler does not
        catch it. */
    | SessionNotFound
    /** An exception raised by the token model while minting. */
    | TokenModelError(cause: SchemaError)
    /** Python exceptions raised by the code as written (see Findings). */
    | TypeError(message: string)
    | AttributeError(message: string)

  const InvalidCredentials: HandlerError := HttpException(HttpUnauthorized, InvalidClient, "invalid credentials")
  const InvalidCallbackId: HandlerError := HttpException(HttpBadRequest, InvalidRequest, "Invalid callback ID")
  const ScopesNotAllowed: HandlerError :=
    HttpException(HttpForbidden, InvalidScope, "the client does not have access to the required scopes")
  const MissingAuthorizationCode: HandlerError :=
    HttpException(HttpBadRequest, InvalidGrant, "the authorization code cannot be null for the authorization_code grant")
  const InvalidAuthorizationCode: HandlerError := HttpException(HttpBadRequest, InvalidRequest, "invalid authorization code")

  /** `Query(min_length=..., max_length=...)`. */
  predicate LengthWithin(s: string, minLength: int, maxLength: int) {
    minLength <= |s| <= maxLength
  }

  predicate ClientIdQueryValid(clientId: string, policy: Tools.LengthPolicy) {
    LengthWithin(clientId, policy.clientIdMinLength, policy.clientIdMaxLength)
  }

  /** The `client_secret` query bounds the secret generator respects. */
  predicate SecretQueryValid(secret: string, policy: Tools.LengthPolicy) {
    LengthWithin(secret, policy.clientSecretMinLength, policy.clientSecretMaxLength)
  }

  /** The `client_secret` query bounds as declared, with the minimum and the
      maximum exchanged. */
  predicate SecretQueryValidAsWritten(secret: string, policy: Tools.LengthPolicy) {
    LengthWithin(secret, policy.clientSecretMaxLength, policy.clientSecretMinLength)
  }

  /** A client store is keyed by client id. */
  predicate ClientsKeyedById(clients: map<string, Client>) {
    forall id :: id in clients ==> clients[id].id == id
  }

  // ---------------------------------------------------------------------------
  // Dependencies

  /** `get_client`. */
  function GetClient(clientId: string, clients: map<string, Client>, policy: Tools.LengthPolicy): (r: Result<Client, HandlerError>)
    ensures r.Success? <==> ClientIdQueryValid(clientId, policy) && clientId in clients
    ensures r.Success? ==> r.value == clients[clientId]
    ensures r.Failure? ==> r.error == if ClientIdQueryValid(clientId, policy) then InvalidCredentials else RequestValidationError
  {
    if !ClientIdQueryValid(clientId, policy) then Failure(RequestValidationError)
    else if clientId !in clients then Failure(InvalidCredentials)
    else Success(clients[clientId])
  }

  /** The body of `get_authenticated_client`, once both query parameters
      passed validation: look the client up, then check its secret. */
  function AuthenticateClient(clientId: string, clientSecret: string, clients: map<string, Client>,
                              policy: Tools.LengthPolicy, digest: Tools.BcryptDigest): Result<Client, HandlerError>
  {
    var client :- GetClient(clientId, clients, policy);
    if !IsAuthenticated(client, clientSecret, digest) then Failure(InvalidCredentials) else Success(client)
  }

  /** `get_authenticated_client`, with the secret's length bounds the
      generator respects. An unknown client and a wrong secret get the same
      answer. */
  function GetAuthenticatedClient(clientId: string, clientSecret: string, clients: map<string, Client>,
                                  policy: Tools.LengthPolicy, digest: Tools.BcryptDigest): (r: Result<Client, HandlerError>)
    ensures r.Success? <==>
              && ClientIdQueryValid(clientId, policy) && SecretQueryValid(clientSecret, policy)
              && clientId in clients && IsAuthenticated(clients[clientId], clientSecret, digest)
    ensures r.Success? ==> r.value == clients[clientId]
    ensures r.Failure? ==>
              r.error == if ClientIdQueryValid(clientId, policy) && SecretQueryValid(clientSecret, policy)
                         then InvalidCredentials else RequestValidationError
  {
    if !ClientIdQueryValid(clientId, policy) || !SecretQueryValid(clientSecret, policy) then Failure(RequestValidationError)
    else AuthenticateClient(clientId, clientSecret, clients, policy, digest)
  }

  /** `get_authenticated_client` with the query bounds as declared: the
      same lookup, behind a secret check whose bounds are exchanged. */
  function GetAuthenticatedClientAsWritten(clientId: string, clientSecret: string, clients: map<string, Client>,
                                           policy: Tools.LengthPolicy, digest: Tools.BcryptDigest): (r: Result<Client, HandlerError>)
    ensures r.Success? <==>
              && ClientIdQueryValid(clientId, policy)
              && policy.clientSecretMaxLength <= |clientSecret| <= policy.clientSecretMinLength
              && clientId in clients && IsAuthenticated(clients[clientId], clientSecret, digest)
    ensures r.Success? ==> r.value == clients[clientId]
    ensures r.Failure? ==>
              r.error == if ClientIdQueryValid(clientId, policy) && SecretQueryValidAsWritten(clientSecret, policy)
                         then InvalidCredentials else RequestValidationError
  {
    if !ClientIdQueryValid(clientId, policy) || !SecretQueryValidAsWritten(clientSecret, policy) then Failure(RequestValidationError)
    else AuthenticateClient(clientId, clientSecret, clients, policy, digest)
  }

  /** With the bounds exchanged and the minimum secret length below the
      maximum, no secret passes validation, so no client ever authenticates,
      however correct its credentials. */
  lemma AsWrittenRejectsEverySecret(clientId: string, clientSecret: string, clients: map<string, Client>,
                                    policy: Tools.LengthPolicy, digest: Tools.BcryptDigest)
    requires policy.clientSecretMinLength < policy.clientSecretMaxLength
    ensures GetAuthenticatedClientAsWritten(clientId, clientSecret, clients, policy, digest) == Failure(RequestValidationError)
  {
  }

  /** A client presenting the secret its stored hash was made from, with a
      valid id and a secret of a length the generator produces, is
      authenticated and gets its own record back. */
  lemma GetAuthenticatedClientAcceptsIssuedSecret(clientId: string, secret: string, salt: string,
                                                  clients: map<string, Client>, policy: Tools.LengthPolicy,
                                                  digest: Tools.BcryptDigest)
    requires ClientsKeyedById(clients) && clientId in clients
    requires |salt| == Tools.BcryptSaltLength
    requires clients[clientId].hashedSecret == Some(Tools.HashSecret(secret, salt, digest))
    requires ClientIdQueryValid(clientId, policy) && SecretQueryValid(secret, policy)
    ensures var r := GetAuthenticatedClient(clientId, secret, clients, policy, digest);
            r.Success? && r.value.id == clientId
  {
    IsAuthenticatedWithOwnSecret(clients[clientId], secret, salt, digest);
  }

  /** `setup_session_by_callback_id`: the callback id must have exactly the
      configured length and name a stored session. */
  function SetupSessionByCallbackId(callbackId: string, sessionsByCallbackId: map<string, AuthnSession>,
                                    policy: Tools.LengthPolicy): (r: Result<AuthnSession, HandlerError>)
    ensures r.Success? <==> |callbackId| == policy.callbackIdLength && callbackId in sessionsByCallbackId
    ensures r.Success? ==> r.value == sessionsByCallbackId[callbackId]
    ensures r.Failure? ==>
              r.error == if |callbackId| == policy.callbackIdLength then InvalidCallbackId else RequestValidationError
  {
    if !LengthWithin(callbackId, policy.callbackIdLength, policy.callbackIdLength) then Failure(RequestValidationError)
    else if callbackId !in sessionsByCallbackId then Failure(InvalidCallbackId)
    else Success(sessionsByCallbackId[callbackId])
  }

  // ---------------------------------------------------------------------------
  // Grant handlers

  /** What a token request reads besides its grant context: the sessions by
      authorization code and what minting takes from outside. */
  datatype TokenRequestEnv = TokenRequestEnv(sessionsByAuthzCode: map<string, AuthnSession>, mint: MintEnv)

  /** Both handlers mint with the client's own token model, the client id as
      both client id and subject, and no additional claims. */
  function MintForClient(client: Client, scopes: seq<string>, env: MintEnv): Result<BearerToken, HandlerError> {
    match GenerateToken(client.tokenModel, client.id, client.id, scopes, map[], env)
    case Success(token) => Success(token)
    case Failure(e) => Failure(TokenModelError(e))
  }

  function TokenResponseFor(client: Client, token: BearerToken): TokenResponse {
    TokenResponse(token.token, client.tokenModel.expiresIn, BearerTokenType, None, None)
  }

  /** The scopes a client-credentials token carries: the ones requested, or
      every scope of the client when none were. Whenever the scope check
      passes, the granted scopes never exceed the client's. */
  function ClientCredentialsScopes(client: Client, requestedScopes: seq<string>): (granted: seq<string>)
    ensures AreScopesAllowed(client, requestedScopes) ==>
              forall i :: 0 <= i < |granted| ==> granted[i] in client.base.scopes
    ensures |requestedScopes| == 0 ==> granted == client.base.scopes
    ensures |requestedScopes| > 0 ==> granted == requestedScopes
  {
    if |requestedScopes| > 0 then requestedScopes else client.base.scopes
  }

  /** `client_credentials_token_handler`. */
  function ClientCredentialsTokenHandler(ctx: GrantContext, env: TokenRequestEnv): (r: Result<TokenResponse, HandlerError>)
    ensures !AreScopesAllowed(ctx.client, ctx.requestedScopes) ==> r == Failure(ScopesNotAllowed)
    ensures r.Success? <==> AreScopesAllowed(ctx.client, ctx.requestedScopes) && ctx.client.tokenModel.JwtTokenModel?
    ensures r.Success? ==>
              var token := MintForClient(ctx.client, ClientCredentialsScopes(ctx.client, ctx.requestedScopes), env.mint).value;
              r.value == TokenResponseFor(ctx.client, token)
  {
    var client := ctx.client;
    if !AreScopesAllowed(client, ctx.requestedScopes) then Failure(ScopesNotAllowed)
    else
      var token :- MintForClient(client, ClientCredentialsScopes(client, ctx.requestedScopes), env.mint);
      Success(TokenResponseFor(client, token))
  }

  /** A client-credentials token is issued to the client itself, for no
      scope outside the client's, and its response states the lifetime the
      token carries. */
  lemma ClientCredentialsIssuedToken(ctx: GrantContext, env: TokenRequestEnv)
    requires ClientCredentialsTokenHandler(ctx, env).Success?
    ensures var response := ClientCredentialsTokenHandler(ctx, env).value;
            var token := MintForClient(ctx.client, ClientCredentialsScopes(ctx.client, ctx.requestedScopes), env.mint).value;
            && response.accessToken == token.token
            && response.tokenType == BearerTokenType
            && response.expiresIn == token.info.expiration - token.info.issuedAt == ctx.client.tokenModel.expiresIn
            && token.info.subject == token.info.clientId == ctx.client.id
            && token.info.issuer == ctx.client.tokenModel.issuer
            && (forall i :: 0 <= i < |token.info.scopes| ==> token.info.scopes[i] in ctx.client.base.scopes)
            && (|ctx.requestedScopes| == 0 ==> token.info.scopes == ctx.client.base.scopes)
  {
  }

  /** `client_credentials_token_handler` as written: `generate_token` is
      called without its required `additional_claims` argument. */
  function ClientCredentialsTokenHandlerAsWritten(ctx: GrantContext, env: TokenRequestEnv): (r: Result<TokenResponse, HandlerError>)
    ensures r.Failure?
    ensures r.error == ScopesNotAllowed <==> !AreScopesAllowed(ctx.client, ctx.requestedScopes)
    ensures r.error.TypeError? <==> AreScopesAllowed(ctx.client, ctx.requestedScopes)
  {
    if !AreScopesAllowed(ctx.client, ctx.requestedScopes) then Failure(ScopesNotAllowed)
    else Failure(TypeError("generate_token() missing 1 required positional argument: 'additional_claims'"))
  }

  /** As written, a request the handler means to grant raises instead. */
  lemma AsWrittenClientCredentialsNeverIssues(ctx: GrantContext, env: TokenRequestEnv)
    requires AreScopesAllowed(ctx.client, ctx.requestedScopes) && ctx.client.tokenModel.JwtTokenModel?
    ensures ClientCredentialsTokenHandler(ctx, env).Success?
    ensures ClientCredentialsTokenHandlerAsWritten(ctx, env).Failure?
    ensures ClientCredentialsTokenHandlerAsWritten(ctx, env).error.TypeError?
  {
  }

  /** `authorization_code_token_handler`: the code must be present, name a
      session, belong to the requesting client, and the session's scopes
      must be the client's. */
  function AuthorizationCodeTokenHandler(ctx: GrantContext, env: TokenRequestEnv): (r: Result<TokenResponse, HandlerError>)
    ensures ctx.authzCode.None? ==> r == Failure(MissingAuthorizationCode)
    ensures ctx.authzCode.Some? && ctx.authzCode.value !in env.sessionsByAuthzCode ==> r == Failure(SessionNotFound)
    ensures ctx.authzCode.Some? && ctx.authzCode.value in env.sessionsByAuthzCode ==>
              var session := env.sessionsByAuthzCode[ctx.authzCode.value];
              && (ctx.client.id != session.clientId ==> r == Failure(InvalidAuthorizationCode))
              && (ctx.client.id == session.clientId && !AreScopesAllowed(ctx.client, session.requestedScopes) ==>
                    r == Failure(ScopesNotAllowed))
              && (r.Success? <==> ctx.client.id == session.clientId && AreScopesAllowed(ctx.client, session.requestedScopes)
                                  && ctx.client.tokenModel.JwtTokenModel?)
              && (r.Success? ==> r.value == TokenResponseFor(ctx.client,
                                                             MintForClient(ctx.client, session.requestedScopes, env.mint).value))
  {
    if ctx.authzCode.None? then Failure(MissingAuthorizationCode)
    else if ctx.authzCode.value !in env.sessionsByAuthzCode then Failure(SessionNotFound)
    else
      var session := env.sessionsByAuthzCode[ctx.authzCode.value];
      var client := ctx.client;
      if client.id != session.clientId then Failure(InvalidAuthorizationCode)
      else if !AreScopesAllowed(client, session.requestedScopes) then Failure(ScopesNotAllowed)
      else
        var token :- MintForClient(client, session.requestedScopes, env.mint);
        Success(TokenResponseFor(client, token))
  }

  /** An authorization code is redeemed only by the client its session was
      opened for, and the token carries exactly the scopes of that session,
      whatever scopes the token request itself names. */
  lemma AuthorizationCodeIssuedToken(ctx: GrantContext, env: TokenRequestEnv, otherScopes: seq<string>)
    requires AuthorizationCodeTokenHandler(ctx, env).Success?
    ensures ctx.authzCode.Some? && ctx.authzCode.value in env.sessionsByAuthzCode
    ensures var session := env.sessionsByAuthzCode[ctx.authzCode.value];
            var response := AuthorizationCodeTokenHandler(ctx, env).value;
            var token := MintForClient(ctx.client, session.requestedScopes, env.mint).value;
            && session.clientId == ctx.client.id
            && response.accessToken == token.token
            && response.expiresIn == token.info.expiration - token.info.issuedAt == ctx.client.tokenModel.expiresIn
            && token.info.subject == token.info.clientId == ctx.client.id
            && token.info.scopes == session.requestedScopes
            && (forall i :: 0 <= i < |token.info.scopes| ==> token.info.scopes[i] in ctx.client.base.scopes)
    ensures AuthorizationCodeTokenHandler(ctx.(requestedScopes := otherScopes), env) == AuthorizationCodeTokenHandler(ctx, env)
  {
  }

  /** `authorization_code_token_handler` as written: it reads
      `grant_context.auth_code`, while the field is `authz_code`. */
  function AuthorizationCodeTokenHandlerAsWritten(ctx: GrantContext, env: TokenRequestEnv): (r: Result<TokenResponse, HandlerError>)
    ensures r.Failure? && r.error.AttributeError?
  {
    Failure(AttributeError("'GrantContext' object has no attribute 'auth_code'"))
  }

  /** As written, even a valid code held by its own client raises. */
  lemma AsWrittenAuthorizationCodeNeverIssues(ctx: GrantContext, env: TokenRequestEnv)
    requires ctx.authzCode.Some? && ctx.authzCode.value in env.sessionsByAuthzCode
    requires env.sessionsByAuthzCode[ctx.authzCode.value].clientId == ctx.client.id
    requires AreScopesAllowed(ctx.client, env.sessionsByAuthzCode[ctx.authzCode.value].requestedScopes)
    requires ctx.client.tokenModel.JwtTokenModel?
    ensures AuthorizationCodeTokenHandler(ctx, env).Success?
    ensures AuthorizationCodeTokenHandlerAsWritten(ctx, env).Failure?
  {
  }

  type GrantHandler = (GrantContext, TokenRequestEnv) -> Result<TokenResponse, HandlerError>

  /** `grant_handlers`. */
  const GrantHandlers: map<GrantType, GrantHandler> :=
    map[ClientCredentials := ClientCredentialsTokenHandler, AuthorizationCode := AuthorizationCodeTokenHandler]

  /** Dispatching a token request on its grant type: None where the table
      has no handler. */
  function HandleGrant(grantType: GrantType, ctx: GrantContext, env: TokenRequestEnv): (r: Option<Result<TokenResponse, HandlerError>>)
    ensures r.None? <==> grantType !in {ClientCredentials, AuthorizationCode}
    ensures grantType == ClientCredentials ==> r == Some(ClientCredentialsTokenHandler(ctx, env))
    ensures grantType == AuthorizationCode ==> r == Some(AuthorizationCodeTokenHandler(ctx, env))
  {
    if grantType in GrantHandlers then Some(GrantHandlers[grantType](ctx, env)) else None
  }
}
