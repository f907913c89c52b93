/** The parts of the go-jose `jwt` package the validators call. Signature
    checking, base64 and JSON decoding and go-jose's own claim checks are
    left to the library, so each entry point is a function supplied by the
    caller: the model fixes how the validators combine their outcomes, not
    what the library decides. A library error is carried as its message. */
module Jose {
  import opened Wrappers
  import opened Values

  /** A public key as `x509.ParsePKIXPublicKey` returns it (an RSA, DSA or
      ECDSA key); its content matters only to the signature check. */
  datatype PublicKey = PublicKey(spki: seq<bv8>)

  /** A compact JWS that `jwt.ParseSigned` accepted. */
  datatype Token = Token(compact: string)

  /** The registered claims as go-jose's `jwt.Claims` holds them
      (RFC 7519 section 4.1). Times are seconds since the epoch. */
  datatype RegisteredClaims = RegisteredClaims(
    issuer: string,
    subject: string,
    audience: seq<string>,
    expiry: Option<int>,
    notBefore: Option<int>,
    issuedAt: Option<int>,
    id: string)

  /** `jwt.Expected`: the audience the validator requires and the time it
      reads from the clock. */
  datatype Expected = Expected(audience: seq<string>, time: int)

  datatype Library = Library(
    /** `jwt.ParseSigned`. */
    parseSigned: string -> Result<Token>,
    /** `UnsafeClaimsWithoutVerification` into a `jwt.Claims`. */
    unverifiedRegistered: Token -> Result<RegisteredClaims>,
    /** `UnsafeClaimsWithoutVerification` into an `interface{}`. */
    unverifiedPayload: Token -> Result<Json>,
    /** `token.Claims(key, &claims)`: the signature check under `key`, then
        the decode of the registered claims. */
    verifiedClaims: (Token, PublicKey) -> Result<RegisteredClaims>,
    /** `Claims.Validate(expected)`: `None` when the issuer-independent
        checks (audience, expiry, not-before, issued-at) pass, else the
        error's message. */
    validate: (RegisteredClaims, Expected) -> Option<string>)
}
