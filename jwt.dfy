/** The JWT validator: `Config.Validate`, the issuer records with their
    write-once key cache, `getIssuer`, and the prefix assertions run on the
    mapped claims. */
module Jwt {
  import opened Wrappers
  import opened Values
  import opened GoStrings
  import opened Types
  import opened Jose
  import opened PublicKeys
  import opened ClaimMapping

  /** The configured part of an issuer record: everything but its key. */
  datatype IssuerSettings = IssuerSettings(publicKeyFile: string, idPrefix: string, subjectPrefix: string, groupPrefix: string)
  {
    /** The assertion built from the issuer's prefixes. */
    function Policy(): Assertion {
      Assertion(idPrefix, subjectPrefix, groupPrefix)
    }
  }

  /** The configured part of a `Config`. */
  datatype Settings = Settings(audience: seq<string>, issuers: map<string, IssuerSettings>, claims: ClaimFields)

  /** What the validator consults outside the process: the go-jose library,
      the key files and their parsers, the clock, and `%v` formatting. */
  datatype Env = Env(jose: Library, keys: KeySource, now: int, show: Json -> string)

  /** The key stored in each configured issuer's record, if any. */
  type Cache = map<string, Option<PublicKey>>

  /** What `Validate` returns, and the key cache it leaves behind. */
  datatype Evaluation = Evaluation(validation: Validation, err: Option<string>, cache: Cache)

  /** `getIssuer`: the `iss` claim, read without checking the signature. */
  function IssuerOf(lib: Library, token: Token): (r: Result<string>)
    ensures r.Success? <==> lib.unverifiedRegistered(token).Success?
    ensures r.Success? ==> r.value == lib.unverifiedRegistered(token).value.issuer
    ensures r.Failure? ==> r.error == lib.unverifiedRegistered(token).error
  {
    match lib.unverifiedRegistered(token)
    case Failure(e) => Failure(e)
    case Success(claims) => Success(claims.issuer)
  }

  function ParseFailure(e: string): string {
    "Failed to parse token: " + e + "\n"
  }

  function ClaimsFailure(e: string): string {
    "Failed to extract token claims: " + e + "\n"
  }

  function UnknownIssuer(name: string): string {
    "Invalid token: unknown issuer " + Quote(name) + "\n"
  }

  function InvalidToken(e: string): string {
    "Invalid token: " + e + "\n"
  }

  function KeyFailure(name: string, e: string): string {
    "parse public key for issuer " + Quote(name) + ": " + e
  }

  /** A token-attributable failure: an invalid `Validation`, no error. */
  function Rejected(message: string, cache: Cache): Evaluation {
    Evaluation(Invalid(message), None, cache)
  }

  /** `Config.Validate` against the key cache `cache`. By default the
      assertion at the end is the code as written; `AsIntended` gives the
      ladder with the group check corrected. */
  function Evaluate(s: Settings, cache: Cache, env: Env, tokenString: string, check: GroupCheck := AsWritten): Evaluation
    requires cache.Keys == s.issuers.Keys
  {
    match env.jose.parseSigned(tokenString)
    case Failure(e) => Rejected(ParseFailure(e), cache)
    case Success(token) =>
      match IssuerOf(env.jose, token)
      case Failure(e) => Rejected(ClaimsFailure(e), cache)
      case Success(name) =>
        if name !in s.issuers then Rejected(UnknownIssuer(name), cache)
        else
          match KeyFor(cache[name], env.keys, s.issuers[name].publicKeyFile)
          case Failure(e) => Evaluation(Zero, Some(KeyFailure(name, e)), cache)
          case Success(key) => Evaluation(Verify(s, env, token, s.issuers[name], key, check), None, cache[name := Some(key)])
  }

  /** The rest of the ladder, once the issuer's key is known; none of its
      failures is an error. */
  function Verify(s: Settings, env: Env, token: Token, issuer: IssuerSettings, key: PublicKey,
                  check: GroupCheck := AsWritten): Validation {
    match env.jose.verifiedClaims(token, key)
    case Failure(e) => Invalid(ClaimsFailure(e))
    case Success(claims) =>
      match env.jose.validate(claims, Expected(s.audience, env.now))
      case Some(e) => Invalid(InvalidToken(e))
      case None =>
        match IdentityOf(env.jose.unverifiedPayload(token), s.claims, env.show)
        case Failure(e) => Invalid(InvalidToken(e))
        case Success(identity) => AssertedBy(check, Validation(true, "", identity), issuer.Policy())
  }

  /** The token's signature verifies under `key` and its claims pass the
      library's audience and time checks. */
  predicate Trusted(s: Settings, env: Env, token: Token, key: PublicKey) {
    && env.jose.verifiedClaims(token, key).Success?
    && env.jose.validate(env.jose.verifiedClaims(token, key).value, Expected(s.audience, env.now)).None?
  }

  // ---------------------------------------------------------------------
  // Properties of the ladder

  /** A token that does not parse is rejected with the parser's message and
      no error, before any issuer is looked at. */
  lemma ParseFailureRejected(s: Settings, cache: Cache, env: Env, tokenString: string)
    requires cache.Keys == s.issuers.Keys
    requires env.jose.parseSigned(tokenString).Failure?
    ensures Evaluate(s, cache, env, tokenString)
              == Rejected(ParseFailure(env.jose.parseSigned(tokenString).error), cache)
    ensures !Evaluate(s, cache, env, tokenString).validation.valid
    ensures HasPrefix(Evaluate(s, cache, env, tokenString).validation.error, "Failed to parse token: ")
  {
    var e := env.jose.parseSigned(tokenString).error;
    assert ParseFailure(e) == "Failed to parse token: " + (e + "\n");
    PrefixOfAppend("Failed to parse token: ", e + "\n");
  }

  /** The issuer is read from the unverified claims before any record is
      consulted: when that read fails, the token is rejected with the
      reader's message and no error, whatever the issuers, keys and cache. */
  lemma IssuerFailureRejected(s: Settings, cache: Cache, env: Env, tokenString: string,
                              t: Settings, other: Cache, keys: KeySource)
    requires cache.Keys == s.issuers.Keys && other.Keys == t.issuers.Keys
    requires env.jose.parseSigned(tokenString).Success?
    requires env.jose.unverifiedRegistered(env.jose.parseSigned(tokenString).value).Failure?
    ensures Evaluate(s, cache, env, tokenString)
              == Rejected(ClaimsFailure(env.jose.unverifiedRegistered(env.jose.parseSigned(tokenString).value).error), cache)
    ensures Evaluate(s, cache, env, tokenString).validation
              == Evaluate(t, other, env.(keys := keys), tokenString).validation
  {
  }

  /** An issuer that is not configured is rejected by name, with no error,
      and no key is loaded. */
  lemma UnknownIssuerRejected(s: Settings, cache: Cache, env: Env, tokenString: string)
    requires cache.Keys == s.issuers.Keys
    requires env.jose.parseSigned(tokenString).Success?
    requires IssuerOf(env.jose, env.jose.parseSigned(tokenString).value).Success?
    requires IssuerOf(env.jose, env.jose.parseSigned(tokenString).value).value !in s.issuers
    ensures Evaluate(s, cache, env, tokenString)
              == Rejected(UnknownIssuer(IssuerOf(env.jose, env.jose.parseSigned(tokenString).value).value), cache)
  {
  }

  /** The key cache is write-once: its keys stay those of the configured
      issuers, a stored key is never replaced, and the only entry that can
      change is the token's issuer, from no key to a key. */
  lemma CacheWriteOnce(s: Settings, cache: Cache, env: Env, tokenString: string)
    requires cache.Keys == s.issuers.Keys
    ensures Evaluate(s, cache, env, tokenString).cache.Keys == cache.Keys
    ensures forall n :: n in cache && cache[n].Some? ==> Evaluate(s, cache, env, tokenString).cache[n] == cache[n]
    ensures forall n :: n in cache && Evaluate(s, cache, env, tokenString).cache[n] != cache[n]
              ==> && cache[n].None? && Evaluate(s, cache, env, tokenString).cache[n].Some?
                  && env.jose.parseSigned(tokenString).Success?
                  && IssuerOf(env.jose, env.jose.parseSigned(tokenString).value) == Success(n)
  {
  }

  /** The error return is set exactly when the issuer had no key yet and
      loading it failed; the `Validation` is then Go's zero value and the
      record keeps no key. */
  lemma KeyFailureIsError(s: Settings, cache: Cache, env: Env, tokenString: string)
    requires cache.Keys == s.issuers.Keys
    ensures var r := Evaluate(s, cache, env, tokenString);
            r.err.Some? <==>
              && env.jose.parseSigned(tokenString).Success?
              && var issuer := IssuerOf(env.jose, env.jose.parseSigned(tokenString).value);
                 && issuer.Success? && issuer.value in s.issuers
                 && cache[issuer.value].None?
                 && LoadKey(env.keys, s.issuers[issuer.value].publicKeyFile).Failure?
    ensures var r := Evaluate(s, cache, env, tokenString);
            r.err.Some? ==> r.validation == Zero && r.cache == cache
  {
  }

  /** A token whose signature does not verify, or whose claims fail the
      audience and time checks, is rejected with no claims and no error. */
  lemma UntrustedRejected(s: Settings, cache: Cache, env: Env, tokenString: string, key: PublicKey)
    requires cache.Keys == s.issuers.Keys
    requires env.jose.parseSigned(tokenString).Success?
    requires var issuer := IssuerOf(env.jose, env.jose.parseSigned(tokenString).value);
             && issuer.Success? && issuer.value in s.issuers
             && KeyFor(cache[issuer.value], env.keys, s.issuers[issuer.value].publicKeyFile) == Success(key)
    requires !Trusted(s, env, env.jose.parseSigned(tokenString).value, key)
    ensures var r := Evaluate(s, cache, env, tokenString);
            && r.err.None? && !r.validation.valid && r.validation.claims == NoClaims
  {
  }

  /** Whenever there is no error and the token is not valid, the `Error`
      text says why. */
  lemma RejectionExplained(s: Settings, cache: Cache, env: Env, tokenString: string)
    requires cache.Keys == s.issuers.Keys
    ensures var r := Evaluate(s, cache, env, tokenString);
            r.err.None? && !r.validation.valid ==> |r.validation.error| > 0
  {
    var r := Evaluate(s, cache, env, tokenString);
    match env.jose.parseSigned(tokenString)
    case Failure(_) =>
    case Success(token) =>
      match IssuerOf(env.jose, token)
      case Failure(_) =>
      case Success(name) =>
        if name in s.issuers {
          match KeyFor(cache[name], env.keys, s.issuers[name].publicKeyFile)
          case Failure(_) =>
          case Success(key) =>
            match IdentityOf(env.jose.unverifiedPayload(token), s.claims, env.show)
            case Failure(_) =>
            case Success(identity) =>
              AssertedSpec(Validation(true, "", identity), s.issuers[name].Policy());
        }
  }

  /** On the success path the result is the issuer's assertion applied to a
      valid `Validation` of the mapped claims; so a valid result means the
      token is trusted and every prefix check passed. */
  lemma AcceptedIsAsserted(s: Settings, cache: Cache, env: Env, tokenString: string)
    requires cache.Keys == s.issuers.Keys
    ensures var r := Evaluate(s, cache, env, tokenString);
            r.validation.valid ==>
              && r.err.None?
              && env.jose.parseSigned(tokenString).Success?
              && var token := env.jose.parseSigned(tokenString).value;
                 var issuer := IssuerOf(env.jose, token);
                 && issuer.Success? && issuer.value in s.issuers
                 && r.cache[issuer.value].Some?
                 && Trusted(s, env, token, r.cache[issuer.value].value)
                 && var identity := IdentityOf(env.jose.unverifiedPayload(token), s.claims, env.show);
                    && identity.Success?
                    && r.validation == Asserted(Validation(true, "", identity.value), s.issuers[issuer.value].Policy())
                    && Passes(identity.value, s.issuers[issuer.value].Policy())
  {
    var r := Evaluate(s, cache, env, tokenString);
    if r.validation.valid {
      var token := env.jose.parseSigned(tokenString).value;
      var name := IssuerOf(env.jose, token).value;
      var identity := IdentityOf(env.jose.unverifiedPayload(token), s.claims, env.show).value;
      AssertedSpec(Validation(true, "", identity), s.issuers[name].Policy());
    }
  }

  /** The success path: a token that parses, names a configured issuer
      whose key is cached or loads, is trusted under that key and maps its
      claims is answered by the as-written assertion of those claims, with
      no error and the key stored. It is accepted exactly when the claims
      pass the prefix checks. */
  lemma TrustedIsAsserted(s: Settings, cache: Cache, env: Env, tokenString: string,
                          name: string, key: PublicKey, identity: Claims)
    requires cache.Keys == s.issuers.Keys
    requires env.jose.parseSigned(tokenString).Success?
    requires IssuerOf(env.jose, env.jose.parseSigned(tokenString).value) == Success(name)
    requires name in s.issuers && KeyFor(cache[name], env.keys, s.issuers[name].publicKeyFile) == Success(key)
    requires Trusted(s, env, env.jose.parseSigned(tokenString).value, key)
    requires IdentityOf(env.jose.unverifiedPayload(env.jose.parseSigned(tokenString).value), s.claims, env.show) == Success(identity)
    ensures var r := Evaluate(s, cache, env, tokenString);
            && r.err.None? && r.cache == cache[name := Some(key)]
            && r.validation == Asserted(Validation(true, "", identity), s.issuers[name].Policy())
            && (r.validation.valid <==> Passes(identity, s.issuers[name].Policy()))
  {
    AssertedSpec(Validation(true, "", identity), s.issuers[name].Policy());
  }

  /** With the group check corrected, a valid result means every field
      has its own prefix: each group has the issuer's group prefix. */
  lemma AcceptedIsAssertedIntended(s: Settings, cache: Cache, env: Env, tokenString: string)
    requires cache.Keys == s.issuers.Keys
    ensures var r := Evaluate(s, cache, env, tokenString, AsIntended);
            r.validation.valid ==>
              && r.err.None?
              && env.jose.parseSigned(tokenString).Success?
              && var token := env.jose.parseSigned(tokenString).value;
                 var issuer := IssuerOf(env.jose, token);
                 && issuer.Success? && issuer.value in s.issuers
                 && r.cache[issuer.value].Some?
                 && Trusted(s, env, token, r.cache[issuer.value].value)
                 && var identity := IdentityOf(env.jose.unverifiedPayload(token), s.claims, env.show);
                    && identity.Success?
                    && r.validation == AssertedIntended(Validation(true, "", identity.value), s.issuers[issuer.value].Policy())
                    && PassesIntended(identity.value, s.issuers[issuer.value].Policy())
  {
    var r := Evaluate(s, cache, env, tokenString, AsIntended);
    if r.validation.valid {
      var token := env.jose.parseSigned(tokenString).value;
      var name := IssuerOf(env.jose, token).value;
      var identity := IdentityOf(env.jose.unverifiedPayload(token), s.claims, env.show).value;
      AssertedIntendedSpec(Validation(true, "", identity), s.issuers[name].Policy());
    }
  }

  /** The correction touches only the final assertion: the error return and
      the key cache are the same either way, and when every issuer's
      subject and group prefixes coincide so is the `Validation`. */
  lemma CorrectionOnlyChangesAssertion(s: Settings, cache: Cache, env: Env, tokenString: string)
    requires cache.Keys == s.issuers.Keys
    ensures Evaluate(s, cache, env, tokenString).err == Evaluate(s, cache, env, tokenString, AsIntended).err
    ensures Evaluate(s, cache, env, tokenString).cache == Evaluate(s, cache, env, tokenString, AsIntended).cache
    ensures (forall n :: n in s.issuers ==> s.issuers[n].subjectPrefix == s.issuers[n].groupPrefix) ==>
              Evaluate(s, cache, env, tokenString) == Evaluate(s, cache, env, tokenString, AsIntended)
  {
    match env.jose.parseSigned(tokenString)
    case Failure(_) =>
    case Success(token) =>
      match IssuerOf(env.jose, token)
      case Failure(_) =>
      case Success(name) =>
        if name in s.issuers {
          match KeyFor(cache[name], env.keys, s.issuers[name].publicKeyFile)
          case Failure(_) =>
          case Success(key) =>
            match IdentityOf(env.jose.unverifiedPayload(token), s.claims, env.show)
            case Failure(_) =>
            case Success(identity) =>
              if s.issuers[name].subjectPrefix == s.issuers[name].groupPrefix {
                AssertAgreesWhenPrefixesEqual(Validation(true, "", identity), s.issuers[name].Policy());
              }
        }
  }

  /** The defect seen through `Validate`: a trusted token whose one group
      has the issuer's group prefix but not its subject prefix is rejected as
      written, with a line saying the group lacks the group prefix, and
      accepted by the corrected ladder. */
  lemma GroupDefectThroughValidate(s: Settings, cache: Cache, env: Env, tokenString: string,
                                   name: string, key: PublicKey, identity: Claims)
    requires cache.Keys == s.issuers.Keys
    requires env.jose.parseSigned(tokenString).Success?
    requires IssuerOf(env.jose, env.jose.parseSigned(tokenString).value) == Success(name)
    requires name in s.issuers && KeyFor(cache[name], env.keys, s.issuers[name].publicKeyFile) == Success(key)
    requires Trusted(s, env, env.jose.parseSigned(tokenString).value, key)
    requires IdentityOf(env.jose.unverifiedPayload(env.jose.parseSigned(tokenString).value), s.claims, env.show) == Success(identity)
    requires var p := s.issuers[name];
             && HasPrefix(identity.id, p.idPrefix) && HasPrefix(identity.subject, p.subjectPrefix)
             && |identity.groups| == 1
             && HasPrefix(identity.groups[0], p.groupPrefix) && !HasPrefix(identity.groups[0], p.subjectPrefix)
    ensures Evaluate(s, cache, env, tokenString).validation
              == Validation(false, GroupLine(identity.groups[0], s.issuers[name].groupPrefix), identity)
    ensures Evaluate(s, cache, env, tokenString, AsIntended).validation == Validation(true, "", identity)
  {
    var v := Validation(true, "", identity);
    assert identity.groups == [identity.groups[0]];
    GroupRejectedForPrefixItHas(v, s.issuers[name].Policy(), identity.groups[0]);
    assert "" + GroupLine(identity.groups[0], s.issuers[name].groupPrefix)
        == GroupLine(identity.groups[0], s.issuers[name].groupPrefix);
  }

  /** Once the token's issuer has a key cached, the key source is never
      consulted: the result is the same whatever the files and parsers say. */
  lemma CachedKeyUsed(s: Settings, cache: Cache, env: Env, keys: KeySource, tokenString: string)
    requires cache.Keys == s.issuers.Keys
    requires env.jose.parseSigned(tokenString).Success?
    requires var issuer := IssuerOf(env.jose, env.jose.parseSigned(tokenString).value);
             issuer.Success? && issuer.value in s.issuers && cache[issuer.value].Some?
    ensures Evaluate(s, cache, env, tokenString) == Evaluate(s, cache, env.(keys := keys), tokenString)
    ensures Evaluate(s, cache, env, tokenString).cache == cache
  {
    var name := IssuerOf(env.jose, env.jose.parseSigned(tokenString).value).value;
    assert cache[name := cache[name]] == cache;
  }

  /** Validating twice with an unchanged library and clock gives the same
      answer, provided the first call did not fail to load the key: the
      second call runs on the cache the first left behind. */
  lemma Repeatable(s: Settings, cache: Cache, env: Env, tokenString: string)
    requires cache.Keys == s.issuers.Keys
    requires Evaluate(s, cache, env, tokenString).err.None?
    ensures var first := Evaluate(s, cache, env, tokenString);
            var second := Evaluate(s, first.cache, env, tokenString);
            second.validation == first.validation && second.err.None? && second.cache == first.cache
  {
    var first := Evaluate(s, cache, env, tokenString);
    CacheWriteOnce(s, cache, env, tokenString);
    match env.jose.parseSigned(tokenString)
    case Failure(_) =>
    case Success(token) =>
      match IssuerOf(env.jose, token)
      case Failure(_) =>
      case Success(name) =>
        if name in s.issuers {
          var key := KeyFor(cache[name], env.keys, s.issuers[name].publicKeyFile).value;
          assert first.cache == cache[name := Some(key)];
          assert first.cache[name := Some(key)] == first.cache;
        }
  }

  /** The part of `Validate` after the issuer's key is known: the
      signature check, the library's claim checks, the claim mapping and
      the assertion. */
  method VerifyToken(s: Settings, env: Env, token: Token, issuer: IssuerSettings, key: PublicKey)
    returns (v: Validation)
    ensures v == Verify(s, env, token, issuer, key)
  {
    var verified := env.jose.verifiedClaims(token, key);
    if verified.Failure? {
      return Invalid(ClaimsFailure(verified.error));
    }
    var invalid := env.jose.validate(verified.value, Expected(s.audience, env.now));
    if invalid.Some? {
      return Invalid(InvalidToken(invalid.value));
    }
    var identity := GetIdentity(env.jose, token, s.claims, env.show);
    if identity.Failure? {
      return Invalid(InvalidToken(identity.error));
    }
    v := Validation(true, "", identity.value);
    v := Assert(v, issuer.Policy());
  }

  // ---------------------------------------------------------------------
  // The configuration objects and `Validate` on them

  /** An `Issuer` record. `publicKey` is the only field that changes: it is
      filled in the first time the issuer's key is needed. */
  class Issuer {
    const publicKeyFile: string
    const idPrefix: string
    const subjectPrefix: string
    const groupPrefix: string
    var publicKey: Option<PublicKey>

    function Configured(): IssuerSettings {
      IssuerSettings(publicKeyFile, idPrefix, subjectPrefix, groupPrefix)
    }

    /** A record as the YAML decoder leaves it: no key yet. */
    constructor (settings: IssuerSettings)
      ensures Configured() == settings && publicKey.None?
    {
      publicKeyFile, idPrefix, subjectPrefix, groupPrefix :=
        settings.publicKeyFile, settings.idPrefix, settings.subjectPrefix, settings.groupPrefix;
      publicKey := None;
    }

    /** `parsePublicKey`: read, decode and parse the key file, and store the
        key only when every step succeeded. */
    method ParsePublicKey(src: KeySource) returns (err: Option<string>)
      modifies this
      ensures LoadKey(src, publicKeyFile).Failure? ==>
                err == Some(LoadKey(src, publicKeyFile).error) && publicKey == old(publicKey)
      ensures LoadKey(src, publicKeyFile).Success? ==>
                err.None? && publicKey == Some(LoadKey(src, publicKeyFile).value)
    {
      var contents := src.readFile(publicKeyFile);
      if contents.Failure? {
        return Some(contents.error);
      }
      var block := src.pemDecode(contents.value);
      if block.None? {
        return Some(PemError);
      }
      var key := src.parsePkix(block.value);
      if key.Failure? {
        return Some(key.error);
      }
      publicKey := Some(key.value);
      return None;
    }
  }

  /** A `Config`: audience, issuer records by name, claim fields. */
  class Config {
    const audience: seq<string>
    const issuers: map<string, Issuer>
    const claims: ClaimFields

    /** No two names share one record, as the YAML decoder guarantees by
        allocating a record per entry. */
    predicate Valid() {
      forall m, n :: m in issuers && n in issuers && m != n ==> issuers[m] != issuers[n]
    }

    function Configured(): Settings {
      Settings(audience, map n | n in issuers :: issuers[n].Configured(), claims)
    }

    function Cache(): (c: Cache)
      reads issuers.Values
      ensures c.Keys == Configured().issuers.Keys
    {
      map n | n in issuers :: issuers[n].publicKey
    }

    /** A configuration as decoded from `settings`, with no key loaded. */
    constructor (settings: Settings)
      ensures Valid() && Configured() == settings
      ensures forall n :: n in Cache() ==> Cache()[n].None?
    {
      var records: map<string, Issuer> := map[];
      var rest := settings.issuers.Keys;
      while rest != {}
        invariant rest !! records.Keys && rest + records.Keys == settings.issuers.Keys
        invariant forall n :: n in records ==> fresh(records[n])
        invariant forall n :: n in records ==> records[n].Configured() == settings.issuers[n] && records[n].publicKey.None?
        invariant forall m, n :: m in records && n in records && m != n ==> records[m] != records[n]
        decreases rest
      {
        var name :| name in rest;
        var record := new Issuer(settings.issuers[name]);
        records := records[name := record];
        rest := rest - {name};
      }
      audience, issuers, claims := settings.audience, records, settings.claims;
    }

    /** `Config.Validate`: the ladder of `Evaluate`, run against the records,
        storing the issuer's key on first use. */
    method Validate(env: Env, tokenString: string) returns (v: Validation, err: Option<string>)
      requires Valid()
      modifies issuers.Values
      ensures Evaluation(v, err, Cache()) == Evaluate(Configured(), old(Cache()), env, tokenString)
    {
      ghost var s, before := Configured(), Cache();
      var parsed := env.jose.parseSigned(tokenString);
      if parsed.Failure? {
        return Invalid(ParseFailure(parsed.error)), None;
      }
      var token := parsed.value;
      var issuerString := IssuerOf(env.jose, token);
      if issuerString.Failure? {
        return Invalid(ClaimsFailure(issuerString.error)), None;
      }
      var name := issuerString.value;
      if name !in issuers {
        return Invalid(UnknownIssuer(name)), None;
      }
      var issuer := issuers[name];
      if issuer.publicKey.None? {
        var e := issuer.ParsePublicKey(env.keys);
        if e.Some? {
          assert Cache() == before by {
            forall n | n in issuers ensures Cache()[n] == before[n] {
              if n != name { assert issuers[n] != issuer; }
            }
          }
          return Zero, Some(KeyFailure(name, e.value));
        }
      }
      var key := issuer.publicKey.value;
      assert Cache() == before[name := Some(key)] by {
        forall n | n in issuers ensures Cache()[n] == before[name := Some(key)][n] {
          if n != name { assert issuers[n] != issuer; }
        }
      }
      assert s.issuers[name] == issuer.Configured();
      assert KeyFor(before[name], env.keys, s.issuers[name].publicKeyFile) == Success(key);
      assert Evaluate(s, before, env, tokenString)
          == Evaluation(Verify(s, env, token, s.issuers[name], key), None, before[name := Some(key)]);
      v := VerifyToken(Configured(), env, token, issuer.Configured(), key);
      err := None;
    }
  }
}
