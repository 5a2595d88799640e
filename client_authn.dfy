/** The client authenticators of pyfederate3/utils/client.py. An
    authenticator is a value: its stored hash is fixed when it is built and
    answering a request changes nothing. */
module ClientAuthn {
  import opened Wrappers
  import Tools

  /** What a client presents to authenticate (pyfederate3/schemas/client.py
      is not part of this model; only the secret is read here). */
  datatype ClientAuthnContext = ClientAuthnContext(secret: Option<string>)

  /** Python truthiness of the presented secret: neither None nor empty. */
  predicate HasSecret(ctx: ClientAuthnContext) {
    ctx.secret.Some? && ctx.secret.value != ""
  }

  datatype ClientAuthenticator =
    | NoneAuthenticator
    | SecretAuthenticator(hashedSecret: string)

  /** `NoneAuthenticator.is_authenticated`: a public client must not present
      a secret. */
  function NoneIsAuthenticated(ctx: ClientAuthnContext): (r: bool)
    ensures r <==> ctx.secret.None? || ctx.secret.value == ""
  {
    !HasSecret(ctx)
  }

  /** `SecretAuthenticator.is_authenticated` as written: the presented secret
      is hashed again, under the fresh random salt `hash_secret` draws, and
      the result compared with the stored hash. pyfederate3/utils/tools.py is
      not part of this model: its `hash_secret` is taken to be the one of
      pyfederate/utils/tools.py, bcrypt under a freshly generated salt
      (`Tools.HashSecret`). */
  function SecretIsAuthenticatedAsWritten(hashedSecret: string, ctx: ClientAuthnContext,
                                          freshSalt: string, digest: Tools.BcryptDigest): (r: bool)
    requires |freshSalt| == Tools.BcryptSaltLength
    ensures r <==> HasSecret(ctx) && Tools.HashSecret(ctx.secret.value, freshSalt, digest) == hashedSecret
  {
    if !HasSecret(ctx) then false
    else Tools.HashSecret(ctx.secret.value, freshSalt, digest) == hashedSecret
  }

  /** As written, the very secret the stored hash was made from is rejected
      whenever the fresh salt differs from the stored one, which for a random
      salt is all but always. */
  lemma AsWrittenRejectsCorrectSecret(secret: string, storedSalt: string, freshSalt: string, digest: Tools.BcryptDigest)
    requires secret != ""
    requires |storedSalt| == Tools.BcryptSaltLength && |freshSalt| == Tools.BcryptSaltLength
    requires storedSalt != freshSalt
    ensures !SecretIsAuthenticatedAsWritten(Tools.HashSecret(secret, storedSalt, digest),
                                            ClientAuthnContext(Some(secret)), freshSalt, digest)
  {
    Tools.HashesWithDistinctSaltsDiffer(secret, storedSalt, secret, freshSalt, digest);
  }

  /** `SecretAuthenticator.is_authenticated` checking the secret against the
      salt stored inside the hash, as `bcrypt.checkpw` does. */
  function SecretIsAuthenticated(hashedSecret: string, ctx: ClientAuthnContext, digest: Tools.BcryptDigest): (r: bool)
    ensures !HasSecret(ctx) ==> !r
    ensures HasSecret(ctx) ==> (r <==> Tools.CheckPw(ctx.secret.value, hashedSecret, digest))
  {
    HasSecret(ctx) && Tools.CheckPw(ctx.secret.value, hashedSecret, digest)
  }

  /** The secret authenticator accepts the secret its hash was made from,
      whatever salt was drawn, and nothing that hashes differently under
      that salt. */
  lemma SecretAcceptsExactlyItsSecret(secret: string, salt: string, ctx: ClientAuthnContext, digest: Tools.BcryptDigest)
    requires |salt| == Tools.BcryptSaltLength
    ensures secret != "" ==>
              SecretIsAuthenticated(Tools.HashSecret(secret, salt, digest), ClientAuthnContext(Some(secret)), digest)
    ensures SecretIsAuthenticated(Tools.HashSecret(secret, salt, digest), ctx, digest) ==>
              HasSecret(ctx) && digest(ctx.secret.value, salt) == digest(secret, salt)
  {
    Tools.CheckPwAcceptsOwnHash(secret, salt, digest);
    var hashed := Tools.HashSecret(secret, salt, digest);
    assert hashed[..Tools.BcryptSaltLength] == salt;
    assert hashed[Tools.BcryptSaltLength..] == digest(secret, salt);
  }

  /** `ClientAuthenticator.is_authenticated`, dispatched on the kind. The
      secret kind uses the corrected `checkpw` check (`SecretIsAuthenticated`),
      not the as-written comparison (`SecretIsAuthenticatedAsWritten`). */
  function IsAuthenticated(authenticator: ClientAuthenticator, ctx: ClientAuthnContext, digest: Tools.BcryptDigest): (r: bool)
    ensures authenticator.NoneAuthenticator? ==> (r <==> !HasSecret(ctx))
    ensures authenticator.SecretAuthenticator? ==> (r ==> HasSecret(ctx))
    ensures authenticator.SecretAuthenticator? ==>
              (r <==> SecretIsAuthenticated(authenticator.hashedSecret, ctx, digest))
  {
    match authenticator
    case NoneAuthenticator => NoneIsAuthenticated(ctx)
    case SecretAuthenticator(hashed) => SecretIsAuthenticated(hashed, ctx, digest)
  }

  /** No request passes both a none authenticator and a secret one: the two
      kinds of client cannot be confused. */
  lemma AuthenticatorsDisjoint(hashedSecret: string, ctx: ClientAuthnContext, digest: Tools.BcryptDigest)
    ensures !(IsAuthenticated(NoneAuthenticator, ctx, digest) && IsAuthenticated(SecretAuthenticator(hashedSecret), ctx, digest))
  {
  }

  /** The client's registration data (pyfederate3/schemas/client.py is not
      part of this model; only the default token model id is read here). */
  datatype ClientInfo = ClientInfo(defaultTokenModelId: string)

  datatype Client = Client(info: ClientInfo, authenticator: ClientAuthenticator)

  /** `Client.get_default_token_model_id`. */
  function GetDefaultTokenModelId(client: Client): (r: string)
    ensures r == client.info.defaultTokenModelId
  {
    client.info.defaultTokenModelId
  }
}
