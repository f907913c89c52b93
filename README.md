# auth-mux claims validation, modelled in Dafny

auth-mux is an authentication gateway. An HTTP input turns a request into a
`Validation` (valid flag, accumulated error text, claims). An output turns
that `Validation` into a response. This project models the pipeline's
decisions:

- **`Validation.Assert`** (module `Types`). It applies the issuer's ID,
  subject and group prefix rules to the claims. Each failed rule clears
  `Valid` and appends one line to `Error`.
- **The JWT validator `Config.Validate`** (module `Jwt`). It is an
  early-return ladder: parse the token, read the unverified `iss`, look up
  the issuer, load its public key lazily into the issuer record, verify the
  signature, check audience and time, map the claims (`ClaimMapping`), and
  assert the prefixes.
  - A failure the token causes is an invalid `Validation` with no error.
  - A key-loading failure is an error.
  - The ladder applies `Assert` as written. `Jwt.Evaluate(…, AsIntended)` is the same ladder with the group check corrected (see Findings).
- **The older `KubernetesTokenReview` input** (module `TokenReviewInput`).
  It is the same ladder with messages that have no trailing newline. It
  applies no prefix assertion.
- **The bearer input** (module `Bearer`). It parses `Authorization: Bearer
  <token>` (RFC 6750 section 2.1). The scheme is compared
  case-insensitively (RFC 7235 section 2.1).
- **The YAML type dispatch of configuration entries**:
  - validators: `TokenConfig`;
  - inputs and outputs: `Adapters`, `AdapterConfig` and `InternalConfig`.
- **The Kubernetes TokenReview answer** built from a `Validation`
  (module `TokenReviewOutput`).

The go-jose library, the key file, PEM and PKIX parsers, the clock, `%v`
formatting and the YAML/JSON decoders are parameters: records of functions
(`Jose.Library`, `PublicKeys.KeySource`, `Jwt.Env`, the `Yaml` records).
The model fixes how the gateway combines their outcomes, not what they
decide.

State that the source changes in place is modelled by classes:

- the issuer records with their write-once `PublicKey` cache
  (`Jwt.Issuer`, `TokenReviewInput.Issuer`);
- the configuration receivers written by `UnmarshalYAML`.

Each method is proved against a function of its inputs and old state, and
the properties are proved about those functions.

Files:

- `wrappers.dfy`, `values.dfy`: `Option`/`Result`, and decoded JSON/YAML values.
- `go_strings.dfy`: `strings.HasPrefix`, `strings.ToLower` and the `%q`
  verb, with its inverse.
- `types.dfy`: `Validation`, `Claims`, `Assertion` and `Assert`.
- `jose.dfy`, `public_keys.dfy`: the library entry points and key loading.
- `claim_mapping.dfy`: `getIdentity`, which both validator snapshots share.
- `jwt.dfy`: the JWT validator.
- `token_review_input.dfy`: the older validator snapshot and its handler.
- `bearer.dfy`: the bearer input.
- `token_config.dfy`, `adapters.dfy`, `adapter_config.dfy`,
  `internal_config.dfy`: the type dispatch.
- `token_review_output.dfy`: the TokenReview answer.

## Model

| member | source | states |
|---|---|---|
| Types.Assert | internal/types/types.go:27-44 | Runs the ID check, then the subject check, then the group loop in list order. Each failure clears `valid` and appends its line. The loop invariant ties the partial result to the spec after each group. |
| Types.AssertedSpec | internal/types/types.go:28-43 | The claims are unchanged. The result is valid iff the input was valid and every check passed, so `Assert` never sets `valid` to true. The error is the old error followed by the failed checks' lines, in order. It gains nothing iff every check passes. |
| Types.CheckedSpec | internal/types/types.go:28-36 | The ID and subject checks keep the claims. `valid` survives iff both prefixes match. The error gains the ID line, then the subject line, each only when its check fails. |
| Types.GroupsCheckedClaims | internal/types/types.go:38-43 | The group loop never changes the claims. |
| Types.GroupsCheckedValid | internal/types/types.go:38-43 | After the first n groups, `valid` holds iff it held before and each of those groups has the tested prefix. |
| Types.GroupsCheckedError | internal/types/types.go:38-43 | The group loop appends exactly the lines of the failing groups, in list order. |
| Types.GroupLinesEmpty | internal/types/types.go:38-43 | The loop appends nothing iff every group so far has the tested prefix. |
| Types.LineNonEmpty | internal/types/types.go:30-41 | Every line `Assert` appends is non-empty, since it ends in a newline. |
| Types.FailureLinesEmpty | internal/types/types.go:28-43 | No line is appended iff the ID, subject and every group pass. |
| Types.AssertEmptyPrefixes | internal/types/types.go:28-39 | With all prefixes empty, `Assert` leaves the `Validation` unchanged. |
| Types.ErrorsAccumulate | internal/types/types.go:28-36 | A failing ID and a failing subject are both reported, ID first, after the existing error text. |
| Types.IdRejection | internal/types/types.go:28-31 | If only the ID fails, the result is invalid and the error gains exactly `Expected ID %q to have prefix %q\n`. |
| Types.GroupPrefixNotEnforced | internal/types/types.go:39-41 | As written, group "ops" passes a required group prefix "team:"; the corrected assertion rejects it. |
| Types.GroupRejectedForPrefixItHas | internal/types/types.go:39-41 | As written, a group that has the group prefix but lacks the subject prefix is rejected with a line that says it lacks the group prefix; the corrected assertion accepts it unchanged. |
| Types.GroupRejectedExample | internal/types/types.go:39-41 | Concrete instance: group "team:dev" with subject prefix "user:" and group prefix "team:". |
| Types.AssertAgreesWhenPrefixesEqual | internal/types/types.go:38-42 | The defect shows only when the subject and group prefixes differ. |
| Types.AssertedIntendedSpec | internal/types/types.go:38-42 | Corrected assertion, with groups tested against `GroupPrefix`. It is valid iff each field has its own prefix, and the error gains exactly the failed checks' lines. |
| Bearer.LowersToBearer | internal/input/bearer/input.go:29 | The scheme test `strings.ToLower(auth[0]) == "bearer"` accepts exactly the six-letter words that spell "bearer" with each letter in either case. |
| GoStrings.UnquoteQuote | internal/types/types.go:30-41 | `%q` loses nothing: unquoting the quoted text gives back the original. |
| GoStrings.QuoteInjective | internal/types/types.go:30-41 | Two messages that quote different strings differ. |
| GoStrings.QuotePlain | internal/types/types.go:30-41 | Text without quotes, backslashes or control characters is quoted as itself between double quotes. |
| PublicKeys.CachedKeyIgnoresSource | internal/token/jwt/jwt.go:76-80 | Once a key is cached, the file and the parsers are never consulted. |
| ClaimMapping.CastStrings | internal/token/jwt/jwt.go:184-192 | All elements are strings iff the cast succeeds. The strings then keep length and order. Otherwise the first non-string element is reported. |
| ClaimMapping.IdentityOfSuccess | internal/token/jwt/jwt.go:158-202 | `getIdentity` succeeds iff the payload is an object whose id and subject are strings and whose groups is an array of strings. The groups keep length and order. `Extra` is the raw extra member, nil when absent. |
| ClaimMapping.IdentityOfFieldFailures | internal/token/jwt/jwt.go:169-182 | A non-string id, a non-string subject and a non-array groups each fail with their own message, in check order. |
| ClaimMapping.IdentityOfGroupFailure | internal/token/jwt/jwt.go:184-192 | A non-string group fails with `failed to cast group to string: %v` of the first such element. |
| ClaimMapping.GetIdentity | internal/token/jwt/jwt.go:158-202 | The loop that fills the groups slice computes the mapping above. It fails at the first non-string element. |
| Jwt.IssuerFailureRejected | internal/token/jwt/jwt.go:58-65 | When `getIssuer` cannot read the unverified claims, the token is rejected with `Failed to extract token claims: %v\n` and no error. The cache is unchanged, and the answer does not depend on the issuers, the keys or the cache. |
| Jwt.Config.Validate | internal/token/jwt/jwt.go:48-127 | Result, error return and new key cache are exactly what `Jwt.Evaluate` gives on the old cache. Only the token's issuer record may change. |
| Jwt.VerifyToken | internal/token/jwt/jwt.go:82-126 | After the key is known: signature check, audience/time check, claim mapping, then `Assert` as written with the issuer's prefixes. |
| Jwt.Issuer.ParsePublicKey | internal/token/jwt/jwt.go:129-147 | On any failure the error is returned and the record keeps its old key. On success the parsed key is stored. |
| Jwt.ParseFailureRejected | internal/token/jwt/jwt.go:49-56 | A token that does not parse is invalid, with `Failed to parse token: ` and no error, before any issuer is consulted. |
| Jwt.UnknownIssuerRejected | internal/token/jwt/jwt.go:67-74 | An unconfigured issuer gives `Invalid token: unknown issuer %q\n`, no error, and an unchanged cache. |
| Jwt.CacheWriteOnce | internal/token/jwt/jwt.go:76-80 | A stored key is never replaced. Only the token's issuer can change, and only from no key to a key. |
| Jwt.KeyFailureIsError | internal/token/jwt/jwt.go:76-79 | The error return is set iff the issuer had no key and loading it failed. The `Validation` is then Go's zero value and the cache is unchanged. |
| Jwt.UntrustedRejected | internal/token/jwt/jwt.go:82-102 | A failed signature or audience/time check is invalid, with empty claims and no error. |
| Jwt.RejectionExplained | internal/token/jwt/jwt.go:49-126 | With no error, an invalid result always has a non-empty `Error`. |
| Jwt.AcceptedIsAsserted | internal/token/jwt/jwt.go:113-126 | A valid result means the token is trusted under the cached key. The result is the as-written `Assert` of `{true, "", identity}` with the issuer's prefixes. The ID has the ID prefix; the subject and every group have the subject prefix. |
| Jwt.TrustedIsAsserted | internal/token/jwt/jwt.go:104-126 | Success-path converse. A token that parses, names a configured issuer whose key is cached or loads, is trusted and maps its claims gets no error. The issuer's key is stored, and the result is the as-written `Assert` of `{true, "", identity}` with the issuer's prefixes. It is valid exactly when those prefix checks pass. |
| Jwt.AcceptedIsAssertedIntended | internal/types/types.go:38-42 | The ladder with the corrected group check (`Evaluate(…, AsIntended)`). A valid result is the corrected assertion of the mapped claims, and the ID, subject and every group each have their own prefix. |
| Jwt.CorrectionOnlyChangesAssertion | internal/token/jwt/jwt.go:113-124 | The correction changes only the final assertion. The error return and the key cache are the same either way. When every issuer's subject and group prefixes are equal, the results are identical. |
| Jwt.GroupDefectThroughValidate | internal/token/jwt/jwt.go:118-124 | Through `Validate`, a trusted token whose single group has the group prefix but not the subject prefix is rejected as written, with `Expected group %q to have prefix %q\n` naming the group prefix. The corrected ladder accepts it. |
| Jwt.CachedKeyUsed | internal/token/jwt/jwt.go:76-80 | Once the issuer's key is cached, the result does not depend on the key source and the cache does not change. |
| Jwt.Repeatable | internal/token/jwt/jwt.go:48-127 | Validating twice, on the cache the first call left, gives the same answer unless the first call failed to load the key. |
| TokenReviewInput.KubernetesTokenReview.Handler | internal/input/kubernetesTokenReview.go:43-57 | Result, error and new cache are what `TokenReviewInput.Handle` gives: a decode failure is `decode JSON: %v` and the validator is not run; a validator error is wrapped as `validate token: %v`. |
| TokenReviewInput.KubernetesTokenReview.ValidateToken | internal/input/kubernetesTokenReview.go:59-130 | Result, error return and new cache are exactly what `TokenReviewInput.Evaluate` gives on the old cache. |
| TokenReviewInput.VerifyToken | internal/input/kubernetesTokenReview.go:93-129 | After the key is known: signature check, audience/time check and claim mapping. Success is `Valid=true` with an empty error. |
| TokenReviewInput.Issuer.ParsePublicKey | internal/input/kubernetesTokenReview.go:132-150 | The key is stored only when every step succeeded. Otherwise the error is returned and the old key kept. |
| TokenReviewInput.DecodeFailureIsError | internal/input/kubernetesTokenReview.go:44-49 | A body that does not decode is an error with a zero `Validation`. The result does not depend on the library, the keys or the clock, and the cache is unchanged. |
| TokenReviewInput.HandlePassesThrough | internal/input/kubernetesTokenReview.go:51-56 | A validator error is wrapped with a zero `Validation`. Otherwise the validator's answer is returned unchanged. |
| TokenReviewInput.UnknownIssuerRejected | internal/input/kubernetesTokenReview.go:78-85 | An unconfigured issuer gives `Invalid token: unknown issuer %q`, no error, and an unchanged cache. |
| TokenReviewInput.IssuerFailureRejected | internal/input/kubernetesTokenReview.go:69-76 | An unreadable issuer claim gives `Failed to extract token claims: %v` (no newline), no error, and an unchanged cache. |
| TokenReviewInput.CacheWriteOnce | internal/input/kubernetesTokenReview.go:87-91 | A stored key is never replaced. Only the token's issuer gains a key, and only when it had none. |
| TokenReviewInput.KeyFailureIsError | internal/input/kubernetesTokenReview.go:87-90 | A key-load failure is an error, never an invalid `Validation`. Nothing is cached. |
| TokenReviewInput.AcceptedIsIdentity | internal/input/kubernetesTokenReview.go:124-129 | A valid result has an empty error and exactly the mapped claims. No prefix check is applied. |
| TokenReviewInput.TrustedIsAccepted | internal/input/kubernetesTokenReview.go:115-129 | Success-path converse. A token that parses, names a configured issuer whose key is cached or loads, verifies, passes the claim checks and maps its claims is accepted. The result is `Valid=true`, `Error=""` and exactly those claims, with no error and the key stored. |
| TokenReviewInput.RejectionExplained | internal/input/kubernetesTokenReview.go:60-122 | With no error, an invalid result always has a non-empty `Error`. |
| TokenReviewInput.PrefixNeverRead | internal/input/kubernetesTokenReview.go:59-130 | Settings that differ only in the issuers' `Prefix` validate every token alike. |
| Bearer.FirstSpace | internal/input/bearer/input.go:27 | Finds the first space: no space before it, or none at all. |
| Bearer.SplitOnce | internal/input/bearer/input.go:27 | `SplitN(header, " ", 2)`: one part iff there is no space; otherwise the parts rejoin with a space, and the first has no space. |
| Bearer.ExtractToken | internal/input/bearer/input.go:27-37 | The header yields a token iff its text before the first space lowercases to `bearer`. The token is everything after that space, further spaces included. |
| Bearer.SchemeCaseInsensitive | internal/input/bearer/input.go:29 | Any spelling of the scheme that lowercases to `bearer` reaches the validator with the text after the space. |
| Bearer.UpperCaseScheme | internal/input/bearer/input.go:29 | `BEARER x` passes `x`. |
| Bearer.EmptyToken | internal/input/bearer/input.go:27-37 | `bearer ` passes the empty token. |
| Bearer.MissingHeaderRejected | internal/input/bearer/input.go:17-25 | An empty header is invalid, with `Missing authorization header` and no error. |
| Bearer.NoSpaceRejected | internal/input/bearer/input.go:27-35 | A non-empty header without a space is rejected as `Expected bearer token in authorization header`. |
| Bearer.RejectedHeaderSkipsValidator | internal/input/bearer/input.go:19-35 | A rejected header gives the same answer whatever the validator is: one of the two fixed messages, with no error. |
| Bearer.TokenReachesValidator | internal/input/bearer/input.go:37-42 | A validator error becomes `validate token: %v` with a zero `Validation`. Otherwise the validator's answer is returned unchanged. |
| Bearer.Handler | internal/input/bearer/input.go:16-43 | A rejected header leaves the validator's cache alone. Otherwise the result and cache are the JWT validator's, reported as above. |
| TokenConfig.DecodeSuccess | internal/token/token.go:21-56 | Decoding succeeds iff the envelope decodes, the type is "JWT" and both YAML steps succeed. It then selects a JWT validator with the decoded settings and keeps the type. |
| TokenConfig.EnvelopeFailureFirst | internal/token/token.go:27-29 | An envelope failure is `unmarshal Token: %v`, reported before any dispatch. |
| TokenConfig.UnknownTypeRefused | internal/token/token.go:36-37 | Any other type is refused with `unmarshal Token: unknown type %q`. The quoted text reads back as the type. |
| TokenConfig.ConfigFailureNamesType | internal/token/token.go:46-48 | A failure of the second decode is `unmarshal JWT config: %v`. |
| TokenConfig.Config.UnmarshalYAML | internal/token/token.go:21-56 | On error the receiver keeps its old value. On success it holds the type and a fresh JWT validator with the decoded settings and no key loaded. |
| Adapters.UnwrapSuccess | internal/config/config.go:30-68 | An entry decodes iff every step does. Type, name and path are then the envelope's, and the config is the second decode's result. |
| Adapters.UnwrapFailures | internal/config/config.go:38-59 | The four errors, in step order: envelope, unknown type, re-marshal, concrete config. |
| Adapters.UnknownTypeNamed | internal/config/config.go:47-48 | The unknown-type message names the type: the quoted text reads back as it. |
| AdapterConfig.InputTypes | internal/config/config.go:44-49 | Only "KubernetesTokenReview" inputs decode. Any other type is `unmarshal Input: unknown type %q`. |
| AdapterConfig.OutputTypes | internal/config/config.go:93-98 | Only "KubernetesTokenReview" outputs decode. Any other type is `unmarshal Output: unknown type %q`. |
| AdapterConfig.InputConfigFailure | internal/config/config.go:57-59 | A concrete config failure is `unmarshal Input config: %v`, and no adapter is produced. |
| AdapterConfig.OutputConfigFailure | internal/config/config.go:106-108 | A concrete config failure is `unmarshal Output config: %v`, and no adapter is produced. |
| AdapterConfig.Input.UnmarshalYAML | internal/config/config.go:30-69 | On error the receiver is unchanged. On success type, name and path are the envelope's, and the config is a freshly decoded `KubernetesTokenReview` input with no key loaded. |
| AdapterConfig.Output.UnmarshalYAML | internal/config/config.go:79-118 | On error the receiver is unchanged. On success it holds the envelope's type, name and path and the decoded output settings. |
| InternalConfig.OutputTypes | internal/config.go:92-99 | A decoded output's type is "Identity" or "KubernetesTokenReview", with the matching config. Any other type is `unmarshal Output: unknown type %q`. |
| InternalConfig.IdentitySelected | internal/config.go:86-119 | An "Identity" entry whose config decodes yields an `Identity` adapter with the envelope's name and path. |
| InternalConfig.Output.UnmarshalYAML | internal/config.go:78-119 | On error the receiver is unchanged. On success it holds the envelope's type, name and path and the decoded config. |
| TokenReviewOutput.ReviewRoundTrip | internal/output/kubernetesTokenReview.go:18-36 | The review keeps everything of the `Validation` but `Extra`: reading it back gives the original. |
| TokenReviewOutput.ReviewInjective | internal/output/kubernetesTokenReview.go:24-31 | Two reviews are equal iff their validations agree on everything but `Extra`. |
| TokenReviewOutput.ReviewIgnoresSettingsAndExtra | internal/output/kubernetesTokenReview.go:14-33 | `APIVersion` is "authentication.k8s.io/v1" and `Kind` is "TokenReview". Neither `Audience`, `MaxTTL` nor `Extra` affects the review. |
| TokenReviewOutput.ReviewStatus | internal/output/kubernetesTokenReview.go:24-31 | The status mirrors the `Validation`: `Authenticated` is `Valid`, `UID` is `ID`, `Username` is `Subject`, `Groups` is `Groups` and `Error` is `Error`. |

## Left out

- I/O and libraries are parameters: the HTTP request, the JSON body decode, `ioutil.ReadFile`, `pem.Decode`, `x509.ParsePKIXPublicKey`, go-jose's parser, signature check and `Claims.Validate`, `time.Now`, and `yaml.Marshal`/`yaml.Unmarshal`. Each is an arbitrary total function. The multi-line `UnmarshalYAML(unmarshal)` callback appears as the result of decoding the envelope.
- `%v` formatting of a Go error is its message string. `%v` of a decoded group element is an arbitrary function `show`.
- `%q` is modelled for the runes `Assert` and the messages meet: ASCII escapes, short escapes and `\x` for control runes. Go's `\u`/`\U` escapes for non-printable non-ASCII runes are not modelled.
- GoStrings.ToLower: lowers ASCII letters only. Only its comparison with "bearer" matters, and no other rune lowers to one of those letters.
- Go's `nil` slices and `nil` `Extra` are not told apart from empty ones. An `Issuers` entry present with a `nil` record, which Go would treat as an unknown issuer, is not representable: every configured name has a record.
- The YAML decoder is assumed to leave each issuer's `PublicKey` empty; the constructors state this.
- The decoded configs are held as their settings values. The input adapter is the allocated `KubernetesTokenReview` object, and the JWT validator is the allocated `Jwt.Config`.
- `Header.Get("authorization")` returns "" for a missing header, so a missing and an empty header are the same input.
- Concurrency: the source has no locking on the key cache, and the model is sequential.
- cmd/auth-mux/main.go, which loads the file, registers routes and serves TLS, is not part of this model.
- The older snapshot's `getIdentity`, `getIssuer` and `parsePublicKey` (internal/input/kubernetesTokenReview.go:132-205) are the same code as in internal/token/jwt/jwt.go. Both validators share `ClaimMapping.IdentityOf`, `Jwt.IssuerOf` and `PublicKeys.LoadKey`, and `TokenReviewInput.IssuerFailureRejected` states the older snapshot's own `getIssuer` rejection message.
- `Input.UnmarshalYAML` of internal/config.go:29-68 is the same code as in internal/config/config.go:30-69. `AdapterConfig.Input` models both.
- The identity outputs are not part of this model. internal/output/identity.go only encodes the `Validation` as JSON. internal/output/identity/output.go writes status 401 when `Valid` is false and then encodes the `Validation`. Nor are the interface-only files.
- The JSON encoding of the TokenReview onto the response writer is left out. `Review` is the value encoded.
- Bearer.Handler: is stated for the JWT validator, the only type `token.Config` can hold. The handler of an input whose validator was never decoded would dereference nil and is not modelled.

## Findings

| source | as written | input that shows it | evidently intended | confidence | as-written member | corrected member |
|---|---|---|---|---|---|---|
| internal/types/types.go:39-41 | The group loop tests each group against `SubjectPrefix`, but its message names `GroupPrefix` | Subject prefix "user:", group prefix "team:", group "team:dev": rejected with `Expected group "team:dev" to have prefix "team:"`. Also group "ops" with group prefix "team:" and empty subject prefix: accepted | Each group is tested against `GroupPrefix` | not executed | Types.GroupRejectedForPrefixItHas | Types.AssertedIntendedSpec |
