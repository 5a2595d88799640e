/** Credential primitives of pyfederate/utils/tools.py: random identifiers over
    an alphanumeric alphabet, the PAR request URI, bcrypt secret hashing, the
    PKCE S256 check, the base64 wrapping of a client's extra parameters, the
    removal of the oldest entry of an insertion-ordered dictionary and the
    `singleton` instance cache.

    Randomness is a sequence of draws supplied by the caller, the wall clock a
    parameter, and SHA-256, bcrypt's key derivation and JSON are functions
    passed in. */
module Tools {
  import opened Wrappers
  import opened Base64

  // ---------------------------------------------------------------------------
  // Random identifiers

  /** The `count` consecutive characters starting at `first`. */
  function CharRange(first: char, count: nat): (r: string)
    requires first as int + count <= 128
    ensures |r| == count
    ensures forall i :: 0 <= i < count ==> r[i] as int == first as int + i
    decreases count
  {
    if count == 0 then [] else [first] + CharRange((first as int + 1) as char, count - 1)
  }

  const LowercaseLetters: string := CharRange('a', 26)
  const UppercaseLetters: string := CharRange('A', 26)
  const Digits: string := CharRange('0', 10)

  /** `alphabet`: Python's `string.ascii_letters + string.digits`. */
  const Alphabet: string := LowercaseLetters + UppercaseLetters + Digits

  predicate IsAlphanumeric(c: char) {
    'a' <= c <= 'z' || 'A' <= c <= 'Z' || '0' <= c <= '9'
  }

  predicate AllAlphanumeric(s: string) {
    forall i :: 0 <= i < |s| ==> IsAlphanumeric(s[i])
  }

  /** Position `k` of the alphabet, by the block it falls in. */
  lemma AlphabetAt(k: int)
    requires 0 <= k < 62
    ensures |Alphabet| == 62
    ensures k < 26 ==> Alphabet[k] as int == 'a' as int + k
    ensures 26 <= k < 52 ==> Alphabet[k] as int == 'A' as int + (k - 26)
    ensures 52 <= k ==> Alphabet[k] as int == '0' as int + (k - 52)
  {
    var lower, upper, digits := LowercaseLetters, UppercaseLetters, Digits;
    assert Alphabet == lower + upper + digits;
    if k < 26 {
      assert Alphabet[k] == lower[k];
    } else if k < 52 {
      assert Alphabet[k] == upper[k - 26];
    } else {
      assert Alphabet[k] == digits[k - 52];
    }
  }

  /** The alphabet holds exactly the 62 ASCII letters and digits. */
  lemma AlphabetIsAlphanumerics()
    ensures |Alphabet| == 62
    ensures forall i :: 0 <= i < |Alphabet| ==> IsAlphanumeric(Alphabet[i])
    ensures forall c :: IsAlphanumeric(c) <==> c in Alphabet
  {
    AlphabetAt(0);
    forall i | 0 <= i < |Alphabet| ensures IsAlphanumeric(Alphabet[i]) {
      AlphabetAt(i);
    }
    forall c | IsAlphanumeric(c) ensures c in Alphabet {
      var k := if 'a' <= c <= 'z' then c as int - 'a' as int
               else if 'A' <= c <= 'Z' then 26 + (c as int - 'A' as int)
               else 52 + (c as int - '0' as int);
      AlphabetAt(k);
      assert Alphabet[k] == c;
    }
  }

  /** `secrets.choice(alphabet)` for the random draw `draw`: the entry at
      `draw % 62`, computed from the block it falls in so that callers do not
      unfold the alphabet itself. */
  function Choice(draw: nat): (c: char)
    ensures IsAlphanumeric(c)
  {
    var k := draw % 62;
    if k < 26 then ('a' as int + k) as char
    else if k < 52 then ('A' as int + (k - 26)) as char
    else ('0' as int + (k - 52)) as char
  }

  /** A choice is the alphabet entry its draw selects. */
  lemma ChoiceIsAlphabetEntry(draw: nat)
    ensures |Alphabet| == 62 && Choice(draw) == Alphabet[draw % 62]
  {
    AlphabetAt(draw % 62);
  }

  /** `generate_fixed_size_random_string`: one alphabet character per draw,
      `length` times. */
  method GenerateFixedSizeRandomString(length: nat, entropy: seq<nat>) returns (s: string)
    requires |entropy| >= length
    ensures |s| == length
    ensures AllAlphanumeric(s)
    ensures forall i :: 0 <= i < length ==> s[i] == Choice(entropy[i])
  {
    s := "";
    for i := 0 to length
      invariant |s| == i
      invariant AllAlphanumeric(s)
      invariant forall j :: 0 <= j < i ==> s[j] == Choice(entropy[j])
    {
      s := s + [Choice(entropy[i])];
    }
  }

  /** `randint(minLength, maxLength)` for the random draw `draw`: inclusive bounds. */
  function RandInt(minLength: nat, maxLength: nat, draw: nat): (n: nat)
    requires minLength <= maxLength
    ensures minLength <= n <= maxLength
  {
    minLength + draw % (maxLength - minLength + 1)
  }

  /** `generate_random_string`: the first draw fixes the length, the following
      ones the characters. */
  method GenerateRandomString(minLength: nat, maxLength: nat, entropy: seq<nat>) returns (s: string)
    requires minLength <= maxLength
    requires |entropy| > maxLength
    ensures minLength <= |s| <= maxLength
    ensures |s| == RandInt(minLength, maxLength, entropy[0])
    ensures AllAlphanumeric(s)
  {
    var length := RandInt(minLength, maxLength, entropy[0]);
    s := GenerateFixedSizeRandomString(length, entropy[1..]);
  }

  /** The lengths of the generated identifiers (the constants module is not
      part of this model, so its values are a parameter). */
  datatype LengthPolicy = LengthPolicy(
    clientIdMinLength: nat, clientIdMaxLength: nat,
    clientSecretMinLength: nat, clientSecretMaxLength: nat,
    callbackIdLength: nat, authorizationCodeLength: nat,
    sessionIdLength: nat, refreshTokenLength: nat, requestUriLength: nat)
  {
    predicate Valid() {
      clientIdMinLength <= clientIdMaxLength && clientSecretMinLength <= clientSecretMaxLength
    }
  }

  method GenerateClientId(policy: LengthPolicy, entropy: seq<nat>) returns (id: string)
    requires policy.Valid() && |entropy| > policy.clientIdMaxLength
    ensures policy.clientIdMinLength <= |id| <= policy.clientIdMaxLength
    ensures AllAlphanumeric(id)
  {
    id := GenerateRandomString(policy.clientIdMinLength, policy.clientIdMaxLength, entropy);
  }

  method GenerateClientSecret(policy: LengthPolicy, entropy: seq<nat>) returns (secret: string)
    requires policy.Valid() && |entropy| > policy.clientSecretMaxLength
    ensures policy.clientSecretMinLength <= |secret| <= policy.clientSecretMaxLength
    ensures AllAlphanumeric(secret)
  {
    secret := GenerateRandomString(policy.clientSecretMinLength, policy.clientSecretMaxLength, entropy);
  }

  method GenerateCallbackId(policy: LengthPolicy, entropy: seq<nat>) returns (id: string)
    requires |entropy| >= policy.callbackIdLength
    ensures |id| == policy.callbackIdLength && AllAlphanumeric(id)
  {
    id := GenerateFixedSizeRandomString(policy.callbackIdLength, entropy);
  }

  method GenerateAuthzCode(policy: LengthPolicy, entropy: seq<nat>) returns (code: string)
    requires |entropy| >= policy.authorizationCodeLength
    ensures |code| == policy.authorizationCodeLength && AllAlphanumeric(code)
  {
    code := GenerateFixedSizeRandomString(policy.authorizationCodeLength, entropy);
  }

  method GenerateSessionId(policy: LengthPolicy, entropy: seq<nat>) returns (id: string)
    requires |entropy| >= policy.sessionIdLength
    ensures |id| == policy.sessionIdLength && AllAlphanumeric(id)
  {
    id := GenerateFixedSizeRandomString(policy.sessionIdLength, entropy);
  }

  method GenerateRefreshToken(policy: LengthPolicy, entropy: seq<nat>) returns (token: string)
    requires |entropy| >= policy.refreshTokenLength
    ensures |token| == policy.refreshTokenLength && AllAlphanumeric(token)
  {
    token := GenerateFixedSizeRandomString(policy.refreshTokenLength, entropy);
  }

  /** The URN prefix of a pushed authorization request URI (section 2.2 of RFC 9126). */
  const RequestUriPrefix: string := "urn:ietf:params:oauth:request_uri:"

  method GenerateRequestUri(policy: LengthPolicy, entropy: seq<nat>) returns (uri: string)
    requires |entropy| >= policy.requestUriLength
    ensures |uri| == |RequestUriPrefix| + policy.requestUriLength
    ensures uri[..|RequestUriPrefix|] == RequestUriPrefix
    ensures AllAlphanumeric(uri[|RequestUriPrefix|..])
  {
    var suffix := GenerateFixedSizeRandomString(policy.requestUriLength, entropy);
    uri := RequestUriPrefix + suffix;
    assert uri[|RequestUriPrefix|..] == suffix;
  }

  // ---------------------------------------------------------------------------
  // Secret hashing

  /** Length of bcrypt's setting string: "$2b$", two cost digits, "$" and a
      22-character salt. `bcrypt.hashpw` returns it followed by the digest. */
  const BcryptSaltLength: nat := 29

  /** bcrypt's key derivation from a secret and a salt, which is not modelled. */
  type BcryptDigest = (string, string) -> string

  /** `hash_secret` with the salt that `bcrypt.gensalt()` drew. */
  function HashSecret(secret: string, salt: string, digest: BcryptDigest): (hashed: string)
    requires |salt| == BcryptSaltLength
    ensures |hashed| >= BcryptSaltLength && hashed[..BcryptSaltLength] == salt
  {
    salt + digest(secret, salt)
  }

  /** `bcrypt.checkpw`: re-derives the hash with the salt stored in `hashed`.
      A hash shorter than a salt is rejected here, where bcrypt raises
      `ValueError("Invalid salt")`; every stored hash comes from `HashSecret`,
      so no modelled path reaches that case. */
  function CheckPw(secret: string, hashed: string, digest: BcryptDigest): bool {
    |hashed| >= BcryptSaltLength
    && HashSecret(secret, hashed[..BcryptSaltLength], digest) == hashed
  }

  /** A secret matches its own hash whatever salt was drawn. */
  lemma CheckPwAcceptsOwnHash(secret: string, salt: string, digest: BcryptDigest)
    requires |salt| == BcryptSaltLength
    ensures CheckPw(secret, HashSecret(secret, salt, digest), digest)
  {
  }

  /** Two hashes drawn with different salts differ, whatever the secrets. */
  lemma HashesWithDistinctSaltsDiffer(s1: string, salt1: string, s2: string, salt2: string, digest: BcryptDigest)
    requires |salt1| == BcryptSaltLength && |salt2| == BcryptSaltLength && salt1 != salt2
    ensures HashSecret(s1, salt1, digest) != HashSecret(s2, salt2, digest)
  {
    assert HashSecret(s1, salt1, digest)[..BcryptSaltLength] == salt1;
  }

  // ---------------------------------------------------------------------------
  // PKCE (sections 4.2 and 4.6 of RFC 7636)

  /** SHA-256 of the UTF-8 encoding of a string, which is not modelled. */
  type Sha256 = string -> seq<byte>

  /** The S256 challenge of a verifier: `urlsafe_b64encode` of its SHA-256
      with every '=' removed, which is its unpadded base64url encoding. */
  function S256(verifier: string, sha256: Sha256): (challenge: string)
    ensures challenge == EncodeUnpadded(sha256(verifier), true)
    ensures PadChar !in challenge
  {
    StripEncode(sha256(verifier), true);
    StripPadding(Encode(sha256(verifier), true))
  }

  /** `is_pkce_valid`: the challenge must be the unpadded base64url encoding
      of the verifier's digest. */
  predicate IsPkceValid(verifier: string, challenge: string, sha256: Sha256): (r: bool)
    ensures r <==> challenge == EncodeUnpadded(sha256(verifier), true)
  {
    S256(verifier, sha256) == challenge
  }

  /** A verifier passes against its own challenge; the challenge carries no
      '=' and is the unpadded base64url of the digest, so it decodes back to it. */
  lemma S256Challenge(verifier: string, sha256: Sha256)
    ensures IsPkceValid(verifier, S256(verifier, sha256), sha256)
    ensures PadChar !in S256(verifier, sha256)
    ensures S256(verifier, sha256) == EncodeUnpadded(sha256(verifier), true)
    ensures DecodeUnpadded(S256(verifier, sha256), true) == Some(sha256(verifier))
  {
    StripEncode(sha256(verifier), true);
    DecodeUnpaddedRoundTrip(sha256(verifier), true);
  }

  /** A verifier fails against the challenge of any verifier with another digest. */
  lemma PkceRejectsOtherDigest(verifier: string, other: string, sha256: Sha256)
    requires sha256(verifier) != sha256(other)
    ensures !IsPkceValid(verifier, S256(other, sha256), sha256)
  {
    S256Challenge(verifier, sha256);
    S256Challenge(other, sha256);
  }

  // ---------------------------------------------------------------------------
  // Extra parameters as base64 of JSON

  /** `json.dumps` followed by UTF-8 encoding, which is not modelled. */
  type JsonDumps = map<string, string> -> seq<byte>
  /** `json.loads`, None when the bytes are not a JSON object of strings. */
  type JsonLoads = seq<byte> -> Option<map<string, string>>

  /** `to_base64_string`. */
  function ToBase64String(extraParams: map<string, string>, dumps: JsonDumps): (s: string)
    ensures |s| % 4 == 0
    ensures Decode(s, false) == Some(dumps(extraParams))
  {
    DecodeRoundTrip(dumps(extraParams), false);
    Encode(dumps(extraParams), false)
  }

  /** `to_json`; None stands for the exception raised on bad base64 or bad JSON. */
  function ToJson(base64String: string, loads: JsonLoads): (r: Option<map<string, string>>)
    ensures Decode(base64String, false).None? ==> r.None?
    ensures Decode(base64String, false).Some? ==> r == loads(Decode(base64String, false).value)
    ensures r.Some? ==> |base64String| % 4 == 0
  {
    var bytes :- Decode(base64String, false);
    loads(bytes)
  }

  /** The base64 layer is transparent: decoding what was encoded yields what
      JSON parsing of the serialised text yields. */
  lemma ToJsonToBase64String(extraParams: map<string, string>, dumps: JsonDumps, loads: JsonLoads)
    ensures ToJson(ToBase64String(extraParams, dumps), loads) == loads(dumps(extraParams))
  {
    DecodeRoundTrip(dumps(extraParams), false);
  }

  /** Hence, when JSON parsing inverts serialisation, the round trip is the identity. */
  lemma ExtraParamsRoundTrip(extraParams: map<string, string>, dumps: JsonDumps, loads: JsonLoads)
    requires loads(dumps(extraParams)) == Some(extraParams)
    ensures ToJson(ToBase64String(extraParams, dumps), loads) == Some(extraParams)
  {
    ToJsonToBase64String(extraParams, dumps, loads);
  }

  // ---------------------------------------------------------------------------
  // Insertion-ordered dictionary

  /** A Python dict: its entries and the order in which their keys were first inserted. */
  class OrderedDict<K(==, !new), V> {
    var order: seq<K>
    var entries: map<K, V>

    ghost predicate Valid()
      reads this
    {
      && (forall i, j :: 0 <= i < j < |order| ==> order[i] != order[j])
      && (forall k :: k in entries <==> k in order)
    }

    constructor ()
      ensures Valid() && order == [] && entries == map[]
    {
      order := [];
      entries := map[];
    }

    /** `d[key] = value`: a new key goes last, an existing key keeps its place. */
    method Put(key: K, value: V)
      requires Valid()
      modifies this
      ensures Valid()
      ensures entries == old(entries)[key := value]
      ensures order == if key in old(entries) then old(order) else old(order) + [key]
    {
      if key !in entries {
        order := order + [key];
      }
      entries := entries[key := value];
    }

    /** `remove_oldest_item`: pops the first-inserted key; on an empty dict
        `next(iter(d))` raises, reported here as `removed == false`. */
    method RemoveOldestItem() returns (removed: bool)
      requires Valid()
      modifies this
      ensures Valid()
      ensures removed <==> old(order) != []
      ensures removed ==> order == old(order)[1..] && entries == old(entries) - {old(order)[0]}
      ensures !removed ==> order == old(order) && entries == old(entries)
    {
      if order == [] {
        return false;
      }
      var first := order[0];
      order := order[1..];
      entries := entries - {first};
      removed := true;
    }
  }

  // ---------------------------------------------------------------------------
  // singleton

  /** `singleton(cls)`: the wrapper caches the first instance built and returns
      it on every later call, whatever the arguments. */
  class Singleton<A, T> {
    const construct: A -> T
    var instance: Option<T>
    ghost var constructions: nat

    ghost predicate Valid()
      reads this
    {
      constructions <= 1 && (instance.None? <==> constructions == 0)
    }

    constructor (construct: A -> T)
      ensures Valid() && this.construct == construct
      ensures instance == None && constructions == 0
    {
      this.construct := construct;
      instance := None;
      constructions := 0;
    }

    method Call(args: A) returns (r: T)
      requires Valid()
      modifies this
      ensures Valid() && instance == Some(r)
      ensures old(instance).Some? ==> r == old(instance).value && constructions == old(constructions)
      ensures old(instance).None? ==> r == construct(args) && constructions == 1
    {
      if instance.None? {
        instance := Some(construct(args));
        constructions := constructions + 1;
      }
      r := instance.value;
    }
  }
}
