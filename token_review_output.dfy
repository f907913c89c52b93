/** The `KubernetesTokenReview` output: the answer to a Kubernetes webhook
    token review, built field by field from a `Validation`. Only the value
    is modelled; its JSON encoding onto the response is not. */
module TokenReviewOutput {
  import opened Values
  import opened Types

  /** The output's configuration; neither field affects the answer. */
  datatype Settings = Settings(audience: string, maxTTL: int)

  /** The fields of `authentication/v1` `UserInfo` the output sets. */
  datatype UserInfo = UserInfo(uid: string, username: string, groups: seq<string>)

  datatype TokenReviewStatus = TokenReviewStatus(authenticated: bool, user: UserInfo, error: string)

  /** A `TokenReview` with its type metadata and status; the spec and object
      metadata are left at their zero values and are not represented. */
  datatype TokenReview = TokenReview(apiVersion: string, kind: string, status: TokenReviewStatus)

  /** `auth.SchemeGroupVersion.String()`: group "authentication.k8s.io",
      version "v1". */
  const APIVersion: string := "authentication.k8s.io/v1"
  const Kind: string := "TokenReview"

  /** The value `Handler` encodes for `validation`. */
  function Review(o: Settings, validation: Validation): TokenReview {
    TokenReview(
      APIVersion,
      Kind,
      TokenReviewStatus(
        validation.valid,
        UserInfo(validation.claims.id, validation.claims.subject, validation.claims.groups),
        validation.error))
  }

  /** What a review tells its reader: the `Validation` it came from, given
      the `Extra` claim it does not carry. */
  function ValidationOf(r: TokenReview, extra: Json): Validation {
    Validation(r.status.authenticated, r.status.error,
      Claims(r.status.user.uid, r.status.user.username, r.status.user.groups, extra))
  }

  /** The review loses nothing of the `Validation` but `Extra`: reading it
      back gives the original. */
  lemma ReviewRoundTrip(o: Settings, v: Validation)
    ensures ValidationOf(Review(o, v), v.claims.extra) == v
  {
  }

  /** Reviews of two validations are equal exactly when the validations
      agree on everything but `Extra`. */
  lemma ReviewInjective(o: Settings, v: Validation, w: Validation)
    ensures Review(o, v) == Review(o, w) <==> v.(claims := v.claims.(extra := JNull)) == w.(claims := w.claims.(extra := JNull))
  {
    if Review(o, v) == Review(o, w) {
      ReviewRoundTrip(o, v);
      ReviewRoundTrip(o, w);
      assert ValidationOf(Review(o, v), JNull) == ValidationOf(Review(o, w), JNull);
    }
  }

  /** The type metadata is fixed, and neither the output's settings nor the
      `Extra` claim affect the review. */
  lemma ReviewIgnoresSettingsAndExtra(o: Settings, p: Settings, v: Validation, extra: Json)
    ensures Review(o, v).apiVersion == "authentication.k8s.io/v1" && Review(o, v).kind == "TokenReview"
    ensures Review(o, v) == Review(p, v.(claims := v.claims.(extra := extra)))
  {
  }

  /** Each status field is the corresponding `Validation` field. */
  lemma ReviewStatus(o: Settings, v: Validation)
    ensures Review(o, v).status.authenticated == v.valid
    ensures Review(o, v).status.user.uid == v.claims.id
    ensures Review(o, v).status.user.username == v.claims.subject
    ensures Review(o, v).status.user.groups == v.claims.groups
    ensures Review(o, v).status.error == v.error
  {
  }
}
