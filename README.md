# pyfederate OAuth2 core in Dafny

This project models the decision logic of pyfederate, an OAuth2 authorization server written in Python, and proves properties of it. The model covers five parts:

- **Token claims and client rules** (`schemas.dfy`):
  - the JWT payload builder and `generate_token`;
  - the construction checks of token models and clients;
  - the client capability predicates (scopes, redirect URIs, response and grant types);
  - the three authentication-step results and the responses they produce;
  - the write-once step and policy registries.
- **Grant dispatch** (`helpers.dfy`):
  - client lookup and authentication;
  - the callback-id session lookup;
  - the `client_credentials` and `authorization_code` token handlers and the table that dispatches to them.
- **Credential primitives** (`tools.dfy`, with `base64.dfy`):
  - random identifiers over the 62 ASCII letters and digits;
  - the pushed-authorization request URI (section 2.2 of RFC 9126);
  - bcrypt secret hashing;
  - the PKCE S256 check (sections 4.2 and 4.6 of RFC 7636), built on base64url (section 5 of RFC 4648);
  - the base64 (section 4 of RFC 4648) round trip of a client's extra parameters;
  - `remove_oldest_item` on an insertion-ordered dictionary;
  - the `singleton` instance cache.
- **Client authenticators** (`client_authn.dfy`): the "none" and the "secret" authenticator.
- **The CRUD-manager registry** (`auth_crud.dfy`): five slots that may each be set once, and the configuration check.

**What comes from outside.** Everything outside the program's own logic is a parameter:

- randomness is a sequence of draws (`entropy`), one per random choice;
- the wall clock and the `uuid4` token id come in a `MintEnv`;
- these are function parameters: SHA-256, bcrypt's key derivation, `jwt.encode` and JSON serialisation;
- the client, session and authorization-code stores are maps.

Raised exceptions are the `Failure` side of a `Result`. HTTP errors carry their status code and OAuth error code.

**How values are represented.**

- **bcrypt hashes.** A bcrypt hash is the 29-character salt setting string followed by a digest of the secret under that salt. `bcrypt.checkpw` re-derives the digest with the salt stored in the hash.
- **Identifier lengths.** The constants module is not part of this model. The identifier lengths are the fields of a `LengthPolicy` value.

**What the handlers do and do not do.**

- In the authorization-code path, `helpers.py` mints tokens whose subject is the client id. It does not use the authenticated user's id.
- An unknown authorization code is not caught by the handler. The exception the session store raises escapes; the model names it `SessionNotFound` (the callback lookup catches it as `exceptions.SessionInfoDoesNotExist`). It is not turned into `invalid_grant`.
- The handler checks no PKCE verifier and does not invalidate the code.
- Four mistakes in `helpers.py` are modelled as intended. The first three keep their as-written behaviour beside the intended one (see Findings):
  - the `client_secret` length bounds are exchanged (line 38);
  - `grant_context.auth_code` is read for the field `authz_code` (line 112);
  - `generate_token` is called without `additional_claims` (lines 95-100 and 140-144), which the model passes as empty.
- The fourth has no as-written twin. `schemas.SessionInfo` (lines 56, 63 and 119) names a class that `schemas.py` does not define; it defines `AuthnSession` (line 337). The model reads the name as `AuthnSession`. As written, the return annotation at line 56 is evaluated when the function is defined, since `helpers.py` does not defer annotations. On Python versions that evaluate annotations eagerly (3.13 and earlier), importing `helpers.py` therefore raises `AttributeError`. The annotations at lines 63 and 119 annotate local variables and are never evaluated.

## Model

| member | source | states |
|---|---|---|
| Base64.CharSextetInverse | pyfederate/utils/tools.py:90-98 | decoding a character of the base64 or base64url alphabet inverts encoding it |
| Base64.Encode | pyfederate/utils/tools.py:101-104 | the padded encoding has length 4·⌈n/3⌉, a multiple of four |
| Base64.EncodeUnpadded | pyfederate/utils/tools.py:90-97 | the unpadded encoding has length ⌈4n/3⌉ and contains no '=' |
| Base64.StripPadding | pyfederate/utils/tools.py:96 | `.replace("=", "")` leaves no '=' and never lengthens the text |
| Base64.StripEncode | pyfederate/utils/tools.py:91-97 | removing '=' from the padded base64url encoding gives exactly the unpadded encoding |
| Base64.DecodeUnpaddedRoundTrip | pyfederate/utils/tools.py:90-98 | decoding the unpadded encoding of any bytes gives back those bytes |
| Base64.DecodeRoundTrip | pyfederate/utils/tools.py:101-108 | decoding the padded encoding of any bytes gives back those bytes |
| Base64.EncodeUnpaddedInjective | pyfederate/utils/tools.py:90-98 | distinct byte strings have distinct unpadded encodings |
| Tools.AlphabetIsAlphanumerics | pyfederate/utils/tools.py:18 | the alphabet has 62 characters, and a character is in it iff it is an ASCII letter or digit |
| Tools.Choice | pyfederate/utils/tools.py:39 | every random choice is an ASCII letter or digit |
| Tools.ChoiceIsAlphabetEntry | pyfederate/utils/tools.py:39 | the choice for a draw is the entry of `alphabet` at that draw modulo 62 |
| Tools.GenerateFixedSizeRandomString | pyfederate/utils/tools.py:38-39 | the string has exactly `length` characters, all alphanumeric, the i-th being the choice of the i-th draw |
| Tools.RandInt | pyfederate/utils/tools.py:44 | the drawn length lies in [min, max], both bounds included |
| Tools.GenerateRandomString | pyfederate/utils/tools.py:42-45 | the length lies in [min, max] and every character is alphanumeric |
| Tools.GenerateClientId | pyfederate/utils/tools.py:48-51 | a client id is alphanumeric, with a length within the client-id bounds |
| Tools.GenerateClientSecret | pyfederate/utils/tools.py:54-57 | a client secret is alphanumeric, with a length within the client-secret bounds |
| Tools.GenerateCallbackId | pyfederate/utils/tools.py:60-61 | a callback id is alphanumeric, of exactly the callback-id length |
| Tools.GenerateAuthzCode | pyfederate/utils/tools.py:64-65 | an authorization code is alphanumeric, of exactly the code length |
| Tools.GenerateSessionId | pyfederate/utils/tools.py:68-69 | a session id is alphanumeric, of exactly the session-id length |
| Tools.GenerateRefreshToken | pyfederate/utils/tools.py:72-73 | a refresh token is alphanumeric, of exactly the refresh-token length |
| Tools.GenerateRequestUri | pyfederate/utils/tools.py:120-121 | the URI is the RFC 9126 URN prefix followed by exactly the request-URI length of alphanumerics |
| Tools.HashSecret | pyfederate/utils/tools.py:76-79 | a hash starts with the salt it was made with |
| Tools.CheckPwAcceptsOwnHash | pyfederate/utils/tools.py:76-79 | `checkpw` accepts a secret against its own hash, whatever salt was drawn |
| Tools.HashesWithDistinctSaltsDiffer | pyfederate/utils/tools.py:76-79 | two hashes made with different salts differ, whatever the secrets |
| Tools.S256Challenge | pyfederate/utils/tools.py:90-98 | a verifier passes against its own S256 challenge; the challenge has no '=', is the unpadded base64url of the digest, and decodes back to the digest |
| Tools.PkceRejectsOtherDigest | pyfederate/utils/tools.py:90-98 | a verifier fails against the challenge of any verifier with a different digest |
| Tools.S256 | pyfederate/utils/tools.py:91-97 | the challenge is the unpadded base64url encoding of the verifier's SHA-256 digest and contains no '=' |
| Tools.IsPkceValid | pyfederate/utils/tools.py:90-98 | a verifier is valid iff the challenge equals the unpadded base64url encoding of its SHA-256 digest |
| Tools.ToBase64String | pyfederate/utils/tools.py:101-104 | the base64 text has a length divisible by four and decodes back to the JSON text of the parameters |
| Tools.ToJson | pyfederate/utils/tools.py:107-108 | text that is not valid base64 yields nothing; otherwise the result is parsing the decoded JSON text |
| Tools.ToJsonToBase64String | pyfederate/utils/tools.py:101-108 | `to_json(to_base64_string(d))` equals parsing the JSON text of `d`: the base64 layer loses nothing |
| Tools.ExtraParamsRoundTrip | pyfederate/utils/tools.py:101-108 | when JSON parsing inverts serialisation, `to_json(to_base64_string(d)) == d` |
| Tools.OrderedDict.Put | pyfederate/utils/tools.py:115-117 | how the dict `remove_oldest_item` receives gets its entries (`d[key] = value`): a new key goes last, an existing key keeps its place and takes the new value |
| Tools.OrderedDict.RemoveOldestItem | pyfederate/utils/tools.py:115-117 | on a non-empty dict, exactly the first-inserted key is removed and the others keep their values and order; an empty dict is reported and left unchanged |
| Tools.Singleton.constructor | pyfederate/utils/tools.py:30 | the wrapper starts with no instance |
| Tools.Singleton.Call | pyfederate/utils/tools.py:24-28 | the first call builds the instance from its arguments; every later call returns that same instance, ignores its arguments, and builds nothing more |
| Schemas.JoinScopes | auth_server/utils/schemas.py:37 | no scopes join to the empty text; otherwise the text starts with the first scope, followed by a space when more follow, and a single scope is the text itself |
| Schemas.SplitJoinScopes | auth_server/utils/schemas.py:37 | for a non-empty list of space-free scopes, splitting the space-joined scope claim on spaces gives back the scopes in order |
| Schemas.ToJwtPayload | auth_server/utils/schemas.py:28-40 | the payload has the additional keys plus the seven reserved claims; each reserved claim equals its `TokenInfo` field (the scope claim is the space-joined scopes); other keys pass through unchanged |
| Schemas.AdditionalClaimsCannotOverrideReserved | auth_server/utils/schemas.py:28-40 | the reserved claims are the same whatever the additional claims, including ones that reuse reserved names |
| Schemas.GenerateToken | auth_server/utils/schemas.py:56-118 | the base token model raises `NotImplementedError`; a JWT model mints a token with issued-at = now, expiration = now + `expires_in`, the model's issuer, the given client id, subject, scopes and claims, a `BearerToken.id` equal to the token info id, and the signature of `to_jwt_payload` under the model's key and algorithm |
| Schemas.GeneratedTokenClaims | auth_server/utils/schemas.py:99-118 | for a non-empty list of space-free scopes, in the signed payload, `exp - iat` is `expires_in`, `iss` is the model's issuer, and the scope claim splits back into the scopes minted |
| Schemas.NewTokenModelUpsert | auth_server/utils/schemas.py:69-82 | construction fails with `ValueError` iff the type is JWT and `key_id` is None; otherwise every field is kept |
| Schemas.NewTokenModelIn | auth_server/utils/schemas.py:134-142 | construction fails with `ValueError` iff the type is JWT and `key_id` is None; otherwise every field is kept |
| Schemas.ToUpsert | auth_server/utils/schemas.py:144-151 | the conversion raises `ValueError` iff the type is JWT and `key_id` is None; on success the id, issuer, lifetime, type and key id are the input's |
| Schemas.ToUpsertOfValidInput | auth_server/utils/schemas.py:144-151 | converting a valid input model never raises and copies every field |
| Schemas.NewClientUpsert | auth_server/utils/schemas.py:212-223 | construction fails with `ValueError` iff the method is NONE and PKCE is not required; otherwise the id is a generated client id, and a secret exists iff the method is SECRET, that secret being a generated client secret |
| Schemas.IsAuthenticated | auth_server/utils/schemas.py:263-271 | false when the client has no hashed secret; otherwise exactly `checkpw` of the secret against that hash |
| Schemas.IsAuthenticatedWithOwnSecret | auth_server/utils/schemas.py:263-271 | a client whose stored hash was made from a secret accepts that secret |
| Schemas.AreScopesAllowed | auth_server/utils/schemas.py:273-274 | true iff every requested scope is among the client's scopes |
| Schemas.ScopesAllowedDependsOnSetOnly | auth_server/utils/schemas.py:273-274 | requests with the same scopes in any order or multiplicity get the same verdict, and the empty request is always allowed |
| Schemas.OwnsRedirectUri | auth_server/utils/schemas.py:276-277 | true iff the URI occurs in the client's redirect URIs |
| Schemas.IsResponseTypeAllowed | auth_server/utils/schemas.py:279-280 | true iff the response type occurs in the client's response types |
| Schemas.IsGrantTypeAllowed | auth_server/utils/schemas.py:282-283 | true iff the grant type occurs in the client's grant types |
| Schemas.GetResponse | auth_server/utils/schemas.py:370-413 | in-progress returns its stored response unchanged; failure redirects (303) to the session's redirect URI with `error=access_denied` and its description; success raises `RuntimeError` iff the session has no authorization code, and otherwise redirects (303) there with `code` and `state` |
| Schemas.TerminalResultsRedirectToClient | auth_server/utils/schemas.py:380-413 | a terminal result always redirects with 303 to the session's redirect URI, carrying a code exactly on success and an error exactly on failure |
| Schemas.DefaultFailureAuthnFunc | auth_server/utils/schemas.py:436-437 | the default failure function always yields a failure result with the description "access denied" |
| Schemas.DefaultFailureStepDenies | auth_server/utils/schemas.py:436-445 | the default failure step has no successors and always answers with an `access_denied` redirect |
| Schemas.AuthnRegistry.constructor | auth_server/utils/schemas.py:357-358 | at start the step registry holds only the default failure step and the policy registry is empty |
| Schemas.AuthnRegistry.RegisterStep | auth_server/utils/schemas.py:429-433 | a fresh step id adds exactly that entry; a duplicate id raises and leaves both registries unchanged; the default failure step stays registered, so registering another step under its id always raises |
| Schemas.AuthnRegistry.RegisterPolicy | auth_server/utils/schemas.py:456-460 | a fresh policy id adds exactly that entry; a duplicate id raises and leaves both registries unchanged |
| Helpers.GetClient | auth_server/utils/helpers.py:12-29 | returns the stored client iff the id passes its length bounds and is known; an unknown id gets `invalid_client`/401 "invalid credentials" |
| Helpers.GetAuthenticatedClient | auth_server/utils/helpers.py:31-52 | returns the looked-up client unchanged iff the parameters pass validation, the client exists and its secret is accepted; an unknown client and a rejected secret both get `invalid_client`/401 |
| Helpers.GetAuthenticatedClientAcceptsIssuedSecret | auth_server/utils/helpers.py:31-52 | a client presenting the secret its hash was made from is authenticated and gets its own record |
| Helpers.GetAuthenticatedClientAsWritten | auth_server/utils/helpers.py:31-52 | as declared, a client is returned iff its id passes validation, the secret's length lies between the maximum and the minimum (exchanged), the client exists and accepts the secret |
| Helpers.AsWrittenRejectsEverySecret | auth_server/utils/helpers.py:36-39 | with the declared length bounds exchanged, no secret passes validation when the minimum is below the maximum |
| Helpers.SetupSessionByCallbackId | auth_server/utils/helpers.py:54-75 | returns the stored session iff the callback id has exactly the callback-id length and is known; an unknown id gets `invalid_request`/400 "Invalid callback ID" |
| Helpers.ClientCredentialsScopes | auth_server/utils/helpers.py:99 | the granted scopes are the requested ones, or all the client's scopes when none were requested; once the scope check passes they never exceed the client's |
| Helpers.ClientCredentialsTokenHandler | auth_server/utils/helpers.py:81-104 | scopes beyond the client's get `invalid_scope`/403 and nothing is minted; the request succeeds iff the scopes are allowed and the model can mint; the response carries the minted token with the model's `expires_in` |
| Helpers.ClientCredentialsIssuedToken | auth_server/utils/helpers.py:94-104 | an issued token has the client id as subject and client id, no scope outside the client's, and `expires_in` equal to its lifetime |
| Helpers.ClientCredentialsTokenHandlerAsWritten | auth_server/utils/helpers.py:87-104 | as written the handler always raises: `invalid_scope`/403 exactly when the scopes are not allowed, `TypeError` exactly when they are |
| Helpers.AsWrittenClientCredentialsNeverIssues | auth_server/utils/helpers.py:95-100 | as written, a request the handler means to grant raises `TypeError` |
| Helpers.AuthorizationCodeTokenHandler | auth_server/utils/helpers.py:108-148 | checks run in order: a missing code gets `invalid_grant`/400, an unknown code the store's error, a session of another client `invalid_request`/400 "invalid authorization code", session scopes beyond the client's `invalid_scope`/403; success holds iff all pass and the model can mint |
| Helpers.AuthorizationCodeIssuedToken | auth_server/utils/helpers.py:119-148 | a redeemed code's session belongs to the requesting client; the token has the client id as subject and exactly the session's scopes, whatever scopes the request names; `expires_in` is its lifetime |
| Helpers.AuthorizationCodeTokenHandlerAsWritten | auth_server/utils/helpers.py:108-112 | as written the handler always raises `AttributeError`, whatever the request |
| Helpers.AsWrittenAuthorizationCodeNeverIssues | auth_server/utils/helpers.py:112-121 | as written, even a valid code held by its own client raises |
| Helpers.HandleGrant | auth_server/utils/helpers.py:152-160 | the table maps exactly `client_credentials` and `authorization_code`, each to its handler |
| ClientAuthn.NoneIsAuthenticated | pyfederate3/utils/client.py:14-19 | accepts iff the presented secret is absent or empty |
| ClientAuthn.SecretIsAuthenticatedAsWritten | pyfederate3/utils/client.py:22-30 | accepts iff a secret is present and re-hashing it under a fresh salt reproduces the stored hash |
| ClientAuthn.AsWrittenRejectsCorrectSecret | pyfederate3/utils/client.py:30 | as written, the correct secret is rejected whenever the fresh salt differs from the stored one |
| ClientAuthn.SecretIsAuthenticated | pyfederate3/utils/client.py:26-30 | rejects an absent or empty secret; otherwise accepts iff `checkpw` accepts it against the stored hash |
| ClientAuthn.SecretAcceptsExactlyItsSecret | pyfederate3/utils/client.py:26-30 | accepts the secret the hash was made from, and only secrets with the same digest under the stored salt |
| ClientAuthn.IsAuthenticated | pyfederate3/utils/client.py:8-30 | the none authenticator accepts exactly the requests without a secret; the secret authenticator accepts exactly what the corrected `checkpw` check accepts (`SecretIsAuthenticated`, not the as-written comparison of line 30), and so only requests with a secret |
| ClientAuthn.AuthenticatorsDisjoint | pyfederate3/utils/client.py:14-30 | no request is accepted by both a none and a secret authenticator |
| ClientAuthn.GetDefaultTokenModelId | pyfederate3/utils/client.py:42-43 | returns the info's default token model id |
| AuthCrud.AuthCrudManager.constructor | pyfederate3/crud/auth.py:11-18 | a fresh manager has all five slots unset and is not configured |
| AuthCrud.AuthCrudManager.SetScopeManager | pyfederate3/crud/auth.py:30-34 | an unset slot takes the value; a set slot raises and keeps its value; no other slot changes |
| AuthCrud.AuthCrudManager.SetTokenModelManager | pyfederate3/crud/auth.py:42-46 | an unset slot takes the value; a set slot raises and keeps its value; no other slot changes |
| AuthCrud.AuthCrudManager.SetClientManager | pyfederate3/crud/auth.py:54-58 | an unset slot takes the value; a set slot raises and keeps its value; no other slot changes |
| AuthCrud.AuthCrudManager.SetAuthnSessionManager | pyfederate3/crud/auth.py:66-72 | an unset slot takes the value; a set slot raises and keeps its value; no other slot changes |
| AuthCrud.AuthCrudManager.SetTokenSessionManager | pyfederate3/crud/auth.py:80-86 | an unset slot takes the value; a set slot raises and keeps its value; no other slot changes |
| AuthCrud.AuthCrudManager.CheckConfig | pyfederate3/crud/auth.py:88-96 | succeeds iff all five slots are set |
| AuthCrud.AuthCrudManagerSingleton.constructor | pyfederate3/crud/auth.py:9-10 | before the first call of the decorated class no instance is cached |
| AuthCrud.AuthCrudManagerSingleton.GetManager | pyfederate3/crud/auth.py:20-22 | the call `AuthCRUDManager()` (and `get_manager` reached through an instance): the first call builds a fresh manager with all five slots unset, which is not configured; every later call returns that same manager |
| AuthCrud.AuthCrudManagerSingleton.ClassGetManagerAsWritten | pyfederate3/crud/auth.py:20-22 | as written, the class-level `AuthCRUDManager.get_manager()` always raises `TypeError` and changes nothing |

## Left out

- FastAPI wiring is not modelled: routes, `Query`/`Path` declarations beyond their length bounds, and the 422 response body. Pydantic models, `to_db_dict` and `to_output` are left out as well; they only copy fields through bcrypt and JSON.
- `prepare_redirect_url` and `get_form_as_dict` are not modelled, because they are URL quoting and async form I/O. A redirect is modelled as its target URI plus its query parameters.
- The telemetry updates in `setup_session_by_callback_id` are not modelled, because they are context variables for logging. `get_timestamp_now` and `generate_uuid` are not modelled either; the clock and the token id are parameters.
- SHA-256, bcrypt's key derivation, `jwt.encode` and JSON are not modelled, because they are foreign primitives; they are function parameters. `Tools.PkceRejectsOtherDigest` therefore proves rejection only for verifiers with different digests, not for every other verifier.
- `Tools.GenerateRandomString`, `Tools.GenerateClientId` and `Tools.GenerateClientSecret` require min ≤ max, because the constants fix the bounds. With min > max the source's `randint` raises `ValueError`, which is not modelled.
- `Tools.CheckPw` rejects a hash shorter than a bcrypt salt, where `bcrypt.checkpw` raises `ValueError("Invalid salt")`. Every stored hash comes from `Tools.HashSecret`, so no modelled path reaches that case.
- `Tools.ToJson` (through `Base64.Decode`) returns None for text that Python's lenient `b64decode` accepts: the decoder is strict, rejecting characters outside the alphabet and misplaced padding, while `b64decode` skips foreign characters (`"e30=\n"` decodes to `{}` in Python, and to None here). Only decoding of well-formed text, such as the output of `to_base64_string`, is relied upon.
- `Schemas.NewClientUpsert` gives a NONE client `secret = None`. In the source the attribute is never assigned for such a client, so reading it raises `AttributeError`.
- The authentication functions, `is_available` and `get_extra_token_claims` of steps and policies are not modelled. They are carried as opaque functions; their `Request` argument is dropped, and their awaitable form is not modelled.
- Awaiting a step function is not modelled. The multi-step flow engine, PKCE verification in the token handler, authorization-code invalidation and concurrent redemption do not occur in the modelled pyfederate functions, so they are not modelled either.
- Importing `helpers.py` is not modelled: the import-time `AttributeError` that the `schemas.SessionInfo` return annotation raises on Python 3.13 and earlier has no member. The model reads that name as `AuthnSession`.
- The stores are not modelled as asynchronous calls: each is a map given to the handler, and its failure modes are limited to "not found".
- `ClientIn.to_upsert` is not modelled separately: it copies the fields into a `ClientUpsert`, whose construction is `Schemas.NewClientUpsert`.
- The getters of `AuthCRUDManager` are the fields themselves: they return the slot's content, unset included, because their "not set" check is commented out. `check_config` is modelled as a returned error; the source uses an `assert`, which Python skips under `-O`.
- The manager classes behind the five slots are not modelled. Their methods are outside this model; only their identity matters here.
- Scope, client and token-model routes, the scope manager interface and the pydantic scope schemas are not modelled, because they forward to CRUD code or raise `NotImplementedError`.

- `AuthCrud.AuthCrudManagerSingleton.GetManager` models the call `AuthCRUDManager()`. The class-level `AuthCRUDManager.get_manager()` raises `TypeError` as written (see Findings). Both take pyfederate3's `singleton`, whose file is not part of this model, to be pyfederate/utils/tools.py:21-31.

## Findings

| source | as written | input that shows it | evidently intended | confidence | as-written member | corrected member |
|---|---|---|---|---|---|---|
| auth_server/utils/helpers.py:38 | `client_secret` is declared with `max_length` = the minimum secret length and `min_length` = the maximum | any secret, whenever the minimum secret length is below the maximum | `min_length` = minimum, `max_length` = maximum, the bounds the secret generator uses | not executed; the constants' values are not part of this model | Helpers.AsWrittenRejectsEverySecret | Helpers.GetAuthenticatedClientAcceptsIssuedSecret |
| pyfederate3/utils/client.py:30 | compares `hash_secret(secret)`, made under a fresh random salt, with the stored hash | the correct secret, with the fresh salt different from the stored one | check the secret against the stored hash's own salt (`bcrypt.checkpw`) | not executed; pyfederate3/utils/tools.py is not part of this model, and its `hash_secret` is assumed to be pyfederate/utils/tools.py:76-79 (bcrypt under a fresh salt) | ClientAuthn.AsWrittenRejectsCorrectSecret | ClientAuthn.SecretAcceptsExactlyItsSecret |
| auth_server/utils/helpers.py:95-100 | `generate_token` is called without its required `additional_claims` argument | any client-credentials request whose scopes are allowed | mint with no additional claims | not executed | Helpers.AsWrittenClientCredentialsNeverIssues | Helpers.ClientCredentialsIssuedToken |
| pyfederate3/crud/auth.py:20-22 | `get_manager` is a `classmethod` of a class that `@singleton` replaces by a function; `functools.wraps` copies the bare `classmethod` object onto that function | the call `AuthCRUDManager.get_manager()` | return the shared manager, as `AuthCRUDManager()` does | not executed; pyfederate3/utils/tools.py is not part of this model, and its `singleton` is assumed to be pyfederate/utils/tools.py:21-31 | AuthCrud.AuthCrudManagerSingleton.ClassGetManagerAsWritten | AuthCrud.AuthCrudManagerSingleton.GetManager |
| auth_server/utils/helpers.py:112 | reads `grant_context.auth_code`; the field is `authz_code` | any authorization-code request, including a valid code held by its own client | read `authz_code` (the call at lines 140-144 also lacks `additional_claims`) | not executed | Helpers.AsWrittenAuthorizationCodeNeverIssues | Helpers.AuthorizationCodeIssuedToken |
