/** The older validator snapshot: the `KubernetesTokenReview` input, which
    decodes a TokenReview request and validates its token itself. It runs
    the same ladder as the JWT validator up to the claim mapping, with
    messages that end without a newline, and applies no prefix assertion:
    an issuer's `Prefix` is configured but never read. */
module TokenReviewInput {
  import opened Wrappers
  import opened Values
  import opened GoStrings
  import opened Types
  import opened Jose
  import opened PublicKeys
  import opened ClaimMapping
  import Jwt

  /** The configured part of an issuer record. */
  datatype IssuerSettings = IssuerSettings(publicKeyFile: string, prefix: string)

  /** The configured part of a `KubernetesTokenReview` input. */
  datatype Settings = Settings(audience: seq<string>, issuers: map<string, IssuerSettings>, claims: ClaimFields)

  function ParseFailure(e: string): string {
    "Failed to parse token: " + e
  }

  function ClaimsFailure(e: string): string {
    "Failed to extract token claims: " + e
  }

  function UnknownIssuer(name: string): string {
    "Invalid token: unknown issuer " + Quote(name)
  }

  function InvalidToken(e: string): string {
    "Invalid token: " + e
  }

  function DecodeFailure(e: string): string {
    "decode JSON: " + e
  }

  function ValidateFailure(e: string): string {
    "validate token: " + e
  }

  /** `validateToken` against the key cache `cache`. */
  function Evaluate(s: Settings, cache: Jwt.Cache, env: Jwt.Env, tokenString: string): Jwt.Evaluation
    requires cache.Keys == s.issuers.Keys
  {
    match env.jose.parseSigned(tokenString)
    case Failure(e) => Jwt.Rejected(ParseFailure(e), cache)
    case Success(token) =>
      match Jwt.IssuerOf(env.jose, token)
      case Failure(e) => Jwt.Rejected(ClaimsFailure(e), cache)
      case Success(name) =>
        if name !in s.issuers then Jwt.Rejected(UnknownIssuer(name), cache)
        else
          match KeyFor(cache[name], env.keys, s.issuers[name].publicKeyFile)
          case Failure(e) => Jwt.Evaluation(Zero, Some(Jwt.KeyFailure(name, e)), cache)
          case Success(key) => Jwt.Evaluation(Verify(s, env, token, key), None, cache[name := Some(key)])
  }

  /** The rest of the ladder once the issuer's key is known. */
  function Verify(s: Settings, env: Jwt.Env, token: Token, key: PublicKey): Validation {
    match env.jose.verifiedClaims(token, key)
    case Failure(e) => Invalid(ClaimsFailure(e))
    case Success(claims) =>
      match env.jose.validate(claims, Expected(s.audience, env.now))
      case Some(e) => Invalid(InvalidToken(e))
      case None =>
        match IdentityOf(env.jose.unverifiedPayload(token), s.claims, env.show)
        case Failure(e) => Invalid(InvalidToken(e))
        case Success(identity) => Validation(true, "", identity)
  }

  /** `Handler` on a request body that decoded to a TokenReview whose
      `spec.token` is `decoded.value`, or failed to decode with
      `decoded.error`. */
  function Handle(s: Settings, cache: Jwt.Cache, env: Jwt.Env, decoded: Result<string>): Jwt.Evaluation
    requires cache.Keys == s.issuers.Keys
  {
    match decoded
    case Failure(e) => Jwt.Evaluation(Zero, Some(DecodeFailure(e)), cache)
    case Success(tokenString) =>
      var r := Evaluate(s, cache, env, tokenString);
      if r.err.Some? then r.(validation := Zero, err := Some(ValidateFailure(r.err.value))) else r
  }

  // ---------------------------------------------------------------------
  // Properties of the handler and the ladder

  /** A body that does not decode is an error, and the validator is not
      reached: the result does not depend on the library, keys or clock,
      and the cache is left alone. */
  lemma DecodeFailureIsError(s: Settings, cache: Jwt.Cache, env: Jwt.Env, other: Jwt.Env, e: string)
    requires cache.Keys == s.issuers.Keys
    ensures Handle(s, cache, env, Failure(e)) == Jwt.Evaluation(Zero, Some("decode JSON: " + e), cache)
    ensures Handle(s, cache, env, Failure(e)) == Handle(s, cache, other, Failure(e))
  {
  }

  /** A validator error comes back wrapped, with Go's zero `Validation`;
      otherwise the validator's answer is returned as it is. */
  lemma HandlePassesThrough(s: Settings, cache: Jwt.Cache, env: Jwt.Env, tokenString: string)
    requires cache.Keys == s.issuers.Keys
    ensures var r, h := Evaluate(s, cache, env, tokenString), Handle(s, cache, env, Success(tokenString));
            && (r.err.Some? ==> h == Jwt.Evaluation(Zero, Some("validate token: " + r.err.value), r.cache))
            && (r.err.None? ==> h == r)
  {
  }

  /** A failure to read the unverified issuer is rejected with the
      reader's message and no error, before any issuer record is consulted. */
  lemma IssuerFailureRejected(s: Settings, cache: Jwt.Cache, env: Jwt.Env, tokenString: string)
    requires cache.Keys == s.issuers.Keys
    requires env.jose.parseSigned(tokenString).Success?
    requires env.jose.unverifiedRegistered(env.jose.parseSigned(tokenString).value).Failure?
    ensures Evaluate(s, cache, env, tokenString)
              == Jwt.Rejected("Failed to extract token claims: "
                              + env.jose.unverifiedRegistered(env.jose.parseSigned(tokenString).value).error, cache)
  {
  }

  /** An issuer that is not configured is rejected by name, with no error,
      and no key is loaded. */
  lemma UnknownIssuerRejected(s: Settings, cache: Jwt.Cache, env: Jwt.Env, tokenString: string)
    requires cache.Keys == s.issuers.Keys
    requires env.jose.parseSigned(tokenString).Success?
    requires Jwt.IssuerOf(env.jose, env.jose.parseSigned(tokenString).value).Success?
    requires Jwt.IssuerOf(env.jose, env.jose.parseSigned(tokenString).value).value !in s.issuers
    ensures Evaluate(s, cache, env, tokenString)
              == Jwt.Rejected("Invalid token: unknown issuer " + Quote(Jwt.IssuerOf(env.jose, env.jose.parseSigned(tokenString).value).value), cache)
  {
  }

  /** The key cache is write-once, and only the token's issuer can gain a
      key, and only when it had none. */
  lemma CacheWriteOnce(s: Settings, cache: Jwt.Cache, env: Jwt.Env, tokenString: string)
    requires cache.Keys == s.issuers.Keys
    ensures Evaluate(s, cache, env, tokenString).cache.Keys == cache.Keys
    ensures forall n :: n in cache && cache[n].Some? ==> Evaluate(s, cache, env, tokenString).cache[n] == cache[n]
    ensures forall n :: n in cache && Evaluate(s, cache, env, tokenString).cache[n] != cache[n]
              ==> && cache[n].None? && Evaluate(s, cache, env, tokenString).cache[n].Some?
                  && env.jose.parseSigned(tokenString).Success?
                  && Jwt.IssuerOf(env.jose, env.jose.parseSigned(tokenString).value) == Success(n)
  {
  }

  /** A key-loading failure is an error, never an invalid `Validation`:
      the error is set exactly when the issuer had no key and loading it
      failed, and then nothing is cached. */
  lemma KeyFailureIsError(s: Settings, cache: Jwt.Cache, env: Jwt.Env, tokenString: string)
    requires cache.Keys == s.issuers.Keys
    ensures var r := Evaluate(s, cache, env, tokenString);
            r.err.Some? <==>
              && env.jose.parseSigned(tokenString).Success?
              && var issuer := Jwt.IssuerOf(env.jose, env.jose.parseSigned(tokenString).value);
                 && issuer.Success? && issuer.value in s.issuers
                 && cache[issuer.value].None?
                 && LoadKey(env.keys, s.issuers[issuer.value].publicKeyFile).Failure?
    ensures var r := Evaluate(s, cache, env, tokenString);
            r.err.Some? ==> r.validation == Zero && r.cache == cache
  {
  }

  /** A valid result is exactly the mapped identity with an empty error:
      no prefix check is applied. */
  lemma AcceptedIsIdentity(s: Settings, cache: Jwt.Cache, env: Jwt.Env, tokenString: string)
    requires cache.Keys == s.issuers.Keys
    ensures var r := Evaluate(s, cache, env, tokenString);
            r.validation.valid ==>
              && r.err.None? && r.validation.error == ""
              && env.jose.parseSigned(tokenString).Success?
              && var token := env.jose.parseSigned(tokenString).value;
                 var identity := IdentityOf(env.jose.unverifiedPayload(token), s.claims, env.show);
                 && identity.Success? && r.validation.claims == identity.value
  {
  }

  /** The success path: a token that parses, names a configured issuer
      whose key is cached or loads, verifies under that key, passes the
      library's claim checks and maps its claims is accepted with exactly
      those claims, no error, and the key stored. */
  lemma TrustedIsAccepted(s: Settings, cache: Jwt.Cache, env: Jwt.Env, tokenString: string,
                          name: string, key: PublicKey, identity: Claims)
    requires cache.Keys == s.issuers.Keys
    requires env.jose.parseSigned(tokenString).Success?
    requires Jwt.IssuerOf(env.jose, env.jose.parseSigned(tokenString).value) == Success(name)
    requires name in s.issuers && KeyFor(cache[name], env.keys, s.issuers[name].publicKeyFile) == Success(key)
    requires env.jose.verifiedClaims(env.jose.parseSigned(tokenString).value, key).Success?
    requires env.jose.validate(env.jose.verifiedClaims(env.jose.parseSigned(tokenString).value, key).value,
                               Expected(s.audience, env.now)).None?
    requires IdentityOf(env.jose.unverifiedPayload(env.jose.parseSigned(tokenString).value), s.claims, env.show) == Success(identity)
    ensures Evaluate(s, cache, env, tokenString)
              == Jwt.Evaluation(Validation(true, "", identity), None, cache[name := Some(key)])
  {
  }

  /** Whenever there is no error and the token is not valid, the `Error`
      text says why. */
  lemma RejectionExplained(s: Settings, cache: Jwt.Cache, env: Jwt.Env, tokenString: string)
    requires cache.Keys == s.issuers.Keys
    ensures var r := Evaluate(s, cache, env, tokenString);
            r.err.None? && !r.validation.valid ==> |r.validation.error| > 0
  {
  }

  /** Settings that differ only in the issuers' prefixes validate every
      token alike: `Prefix` is never read. */
  lemma PrefixNeverRead(s: Settings, t: Settings, cache: Jwt.Cache, env: Jwt.Env, tokenString: string)
    requires cache.Keys == s.issuers.Keys
    requires t.audience == s.audience && t.claims == s.claims && t.issuers.Keys == s.issuers.Keys
    requires forall n :: n in s.issuers ==> t.issuers[n].publicKeyFile == s.issuers[n].publicKeyFile
    ensures Evaluate(s, cache, env, tokenString) == Evaluate(t, cache, env, tokenString)
  {
  }

  // ---------------------------------------------------------------------
  // The input object and its handler

  /** The part of `validateToken` after the issuer's key is known. */
  method VerifyToken(s: Settings, env: Jwt.Env, token: Token, key: PublicKey) returns (v: Validation)
    ensures v == Verify(s, env, token, key)
  {
    var verified := env.jose.verifiedClaims(token, key);
    if verified.Failure? {
      return Invalid(ClaimsFailure(verified.error));
    }
    var invalid := env.jose.validate(verified.value, Expected(s.audience, env.now));
    if invalid.Some? {
      return Invalid(InvalidToken(invalid.value));
    }
    var identity := GetIdentity(env.jose, token, s.claims, env.show);
    if identity.Failure? {
      return Invalid(InvalidToken(identity.error));
    }
    return Validation(true, "", identity.value);
  }

  /** An `Issuer` record; only `publicKey` changes. */
  class Issuer {
    const publicKeyFile: string
    const prefix: string
    var publicKey: Option<PublicKey>

    function Configured(): IssuerSettings {
      IssuerSettings(publicKeyFile, prefix)
    }

    constructor (settings: IssuerSettings)
      ensures Configured() == settings && publicKey.None?
    {
      publicKeyFile, prefix := settings.publicKeyFile, settings.prefix;
      publicKey := None;
    }

    /** `parsePublicKey`: the key is stored only when every step succeeded. */
    method ParsePublicKey(src: KeySource) returns (err: Option<string>)
      modifies this
      ensures LoadKey(src, publicKeyFile).Failure? ==>
                err == Some(LoadKey(src, publicKeyFile).error) && publicKey == old(publicKey)
      ensures LoadKey(src, publicKeyFile).Success? ==>
                err.None? && publicKey == Some(LoadKey(src, publicKeyFile).value)
    {
      var contents := src.readFile(publicKeyFile);
      if contents.Failure? {
        return Some(contents.error);
      }
      var block := src.pemDecode(contents.value);
      if block.None? {
        return Some(PemError);
      }
      var key := src.parsePkix(block.value);
      if key.Failure? {
        return Some(key.error);
      }
      publicKey := Some(key.value);
      return None;
    }
  }

  /** A `KubernetesTokenReview` input: audience, issuer records by name,
      claim fields. */
  class KubernetesTokenReview {
    const audience: seq<string>
    const issuers: map<string, Issuer>
    const claims: ClaimFields

    /** No two names share one record. */
    predicate Valid() {
      forall m, n :: m in issuers && n in issuers && m != n ==> issuers[m] != issuers[n]
    }

    function Configured(): Settings {
      Settings(audience, map n | n in issuers :: issuers[n].Configured(), claims)
    }

    function Cache(): (c: Jwt.Cache)
      reads issuers.Values
      ensures c.Keys == Configured().issuers.Keys
    {
      map n | n in issuers :: issuers[n].publicKey
    }

    /** An input as decoded from `settings`, with no key loaded. */
    constructor (settings: Settings)
      ensures Valid() && Configured() == settings
      ensures forall n :: n in Cache() ==> Cache()[n].None?
    {
      var records: map<string, Issuer> := map[];
      var rest := settings.issuers.Keys;
      while rest != {}
        invariant rest !! records.Keys && rest + records.Keys == settings.issuers.Keys
        invariant forall n :: n in records ==> fresh(records[n])
        invariant forall n :: n in records ==> records[n].Configured() == settings.issuers[n] && records[n].publicKey.None?
        invariant forall m, n :: m in records && n in records && m != n ==> records[m] != records[n]
        decreases rest
      {
        var name :| name in rest;
        var record := new Issuer(settings.issuers[name]);
        records := records[name := record];
        rest := rest - {name};
      }
      audience, issuers, claims := settings.audience, records, settings.claims;
    }

    /** `Handler`: decode the request, then validate its token. */
    method Handler(env: Jwt.Env, decoded: Result<string>) returns (v: Validation, err: Option<string>)
      requires Valid()
      modifies issuers.Values
      ensures Jwt.Evaluation(v, err, Cache()) == Handle(Configured(), old(Cache()), env, decoded)
    {
      if decoded.Failure? {
        return Zero, Some(DecodeFailure(decoded.error));
      }
      v, err := ValidateToken(env, decoded.value);
      if err.Some? {
        return Zero, Some(ValidateFailure(err.value));
      }
    }

    /** `validateToken`: the ladder of `Evaluate`, storing the issuer's key
        on first use. */
    method ValidateToken(env: Jwt.Env, tokenString: string) returns (v: Validation, err: Option<string>)
      requires Valid()
      modifies issuers.Values
      ensures Jwt.Evaluation(v, err, Cache()) == Evaluate(Configured(), old(Cache()), env, tokenString)
    {
      ghost var s, before := Configured(), Cache();
      var parsed := env.jose.parseSigned(tokenString);
      if parsed.Failure? {
        return Invalid(ParseFailure(parsed.error)), None;
      }
      var token := parsed.value;
      var issuerString := Jwt.IssuerOf(env.jose, token);
      if issuerString.Failure? {
        return Invalid(ClaimsFailure(issuerString.error)), None;
      }
      var name := issuerString.value;
      if name !in issuers {
        return Invalid(UnknownIssuer(name)), None;
      }
      var issuer := issuers[name];
      if issuer.publicKey.None? {
        var e := issuer.ParsePublicKey(env.keys);
        if e.Some? {
          assert Cache() == before by {
            forall n | n in issuers ensures Cache()[n] == before[n] {
              if n != name { assert issuers[n] != issuer; }
            }
          }
          return Zero, Some(Jwt.KeyFailure(name, e.value));
        }
      }
      var key := issuer.publicKey.value;
      assert Cache() == before[name := Some(key)] by {
        forall n | n in issuers ensures Cache()[n] == before[name := Some(key)][n] {
          if n != name { assert issuers[n] != issuer; }
        }
      }
      assert KeyFor(before[name], env.keys, s.issuers[name].publicKeyFile) == Success(key);
      v := VerifyToken(Configured(), env, token, key);
      err := None;
    }
  }
}
