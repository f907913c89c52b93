/** The bearer input: reads an `Authorization` header of the form
    `Bearer <token>` (RFC 6750 section 2.1), with the scheme compared
    case-insensitively (RFC 7235 section 2.1), and hands the token to the
    configured validator. */
module Bearer {
  import opened Wrappers
  import opened GoStrings
  import opened Types
  import Jwt

  const MissingHeader: string := "Missing authorization header"
  const ExpectedBearer: string := "Expected bearer token in authorization header"

  /** The index of the first space in `s`, if it has one. */
  function FirstSpace(s: string): (r: Option<nat>)
    ensures r.None? ==> forall i :: 0 <= i < |s| ==> s[i] != ' '
    ensures r.Some? ==> r.value < |s| && s[r.value] == ' ' && forall i :: 0 <= i < r.value ==> s[i] != ' '
  {
    if s == [] then None
    else if s[0] == ' ' then Some(0)
    else
      match FirstSpace(s[1..])
      case None => None
      case Some(i) => Some(i + 1)
  }

  /** `strings.SplitN(s, " ", 2)`: the whole string when it has no space,
      otherwise the text before the first space and the text after it. */
  function SplitOnce(s: string): (parts: seq<string>)
    ensures 1 <= |parts| <= 2
    ensures |parts| == 1 <==> forall i :: 0 <= i < |s| ==> s[i] != ' '
    ensures |parts| == 1 ==> parts[0] == s
    ensures |parts| == 2 ==> parts[0] + " " + parts[1] == s && forall i :: 0 <= i < |parts[0]| ==> parts[0][i] != ' '
  {
    match FirstSpace(s)
    case None => [s]
    case Some(i) =>
      assert s[..i] + " " + s[i + 1..] == s;
      [s[..i], s[i + 1..]]
  }

  /** What the header yields: a rejection message, or the credential. */
  datatype Credential = Rejected(message: string) | Token(token: string)

  /** The header checks of `Handler`, in order. */
  function Extract(header: string): Credential {
    if header == "" then Rejected(MissingHeader)
    else
      var auth := SplitOnce(header);
      if |auth| != 2 || ToLower(auth[0]) != "bearer" then Rejected(ExpectedBearer)
      else Token(auth[1])
  }

  /** A validator's system error comes back wrapped, with Go's zero
      `Validation`; otherwise its answer is returned as it is. */
  function Reported(answer: Outcome): Outcome {
    if answer.err.Some? then Outcome(Zero, Some("validate token: " + answer.err.value)) else answer
  }

  /** `Handler` with a validator that answers `validate(token)`. */
  function Handle(header: string, validate: string -> Outcome): Outcome {
    match Extract(header)
    case Rejected(message) => Outcome(Invalid(message), None)
    case Token(token) => Reported(validate(token))
  }

  // ---------------------------------------------------------------------
  // Properties of the header checks

  /** An empty header is rejected, with no error and whatever the validator. */
  lemma MissingHeaderRejected(validate: string -> Outcome)
    ensures Handle("", validate) == Outcome(Validation(false, "Missing authorization header", NoClaims), None)
  {
  }

  /** A header is passed on exactly when it splits at its first space into a
      scheme that lowercases to `bearer`; the token is then everything after
      that space, further spaces included. */
  lemma {:induction false} ExtractToken(header: string)
    ensures Extract(header).Token? <==>
              exists i :: 0 <= i < |header| && header[i] == ' ' && IsScheme(header, i)
    ensures Extract(header).Token? ==>
              exists i :: 0 <= i < |header| && header[i] == ' ' && IsScheme(header, i)
                          && Extract(header).token == header[i + 1..]
  {
    if Extract(header).Token? {
      var i := FirstSpace(header).value;
      assert SplitOnce(header)[0] == header[..i];
      assert header[i] == ' ' && IsScheme(header, i);
    }
  }

  /** The text before position `i` has no space and lowercases to `bearer`. */
  predicate IsScheme(header: string, i: nat)
    requires i <= |header|
  {
    (forall k :: 0 <= k < i ==> header[k] != ' ') && ToLower(header[..i]) == "bearer"
  }

  /** An ASCII letter is reached by lowering exactly itself and its
      upper-case form. */
  lemma LowerRuneOfLetter(c: char, l: char)
    requires 'a' <= l <= 'z'
    ensures LowerRune(c) == l <==> c == l || c == (l as int - 32) as char
  {
  }

  /** The scheme test `strings.ToLower(auth[0]) == "bearer"` accepts exactly
      the six-letter words spelling "bearer" with each letter in either
      case. */
  lemma LowersToBearer(scheme: string)
    ensures ToLower(scheme) == "bearer" <==>
              |scheme| == 6 && forall i :: 0 <= i < 6 ==> scheme[i] == "bearer"[i] || scheme[i] == "BEARER"[i]
  {
    if |scheme| == 6 {
      forall i | 0 <= i < 6
        ensures LowerRune(scheme[i]) == "bearer"[i] <==> scheme[i] == "bearer"[i] || scheme[i] == "BEARER"[i]
      {
        LowerRuneOfLetter(scheme[i], "bearer"[i]);
        assert ("bearer"[i] as int - 32) as char == "BEARER"[i];
      }
      if ToLower(scheme) != "bearer" {
        var k :| 0 <= k < 6 && ToLower(scheme)[k] != "bearer"[k];
        assert LowerRune(scheme[k]) != "bearer"[k];
      } else {
        forall i | 0 <= i < 6 ensures LowerRune(scheme[i]) == "bearer"[i] {
          assert ToLower(scheme)[i] == "bearer"[i];
        }
      }
    } else {
      assert |ToLower(scheme)| != |"bearer"|;
    }
  }

  /** Any spelling of the scheme that lowercases to `bearer` reaches the
      validator, with exactly the text after the first space. */
  lemma SchemeCaseInsensitive(scheme: string, token: string)
    requires forall k :: 0 <= k < |scheme| ==> scheme[k] != ' '
    requires ToLower(scheme) == "bearer"
    ensures Extract(scheme + " " + token) == Token(token)
  {
    var header := scheme + " " + token;
    assert header[|scheme|] == ' ';
    assert header[..|scheme|] == scheme;
    assert header[|scheme| + 1..] == token;
    assert IsScheme(header, |scheme|);
    ExtractToken(header);
  }

  /** Upper case reaches the validator. */
  lemma UpperCaseScheme()
    ensures Extract("BEARER x") == Token("x")
  {
    var scheme := "BEARER";
    assert ToLower(scheme) == "bearer" by {
      assert |ToLower(scheme)| == 6;
      assert ToLower(scheme)[0] == 'b' && ToLower(scheme)[1] == 'e' && ToLower(scheme)[2] == 'a';
      assert ToLower(scheme)[3] == 'r' && ToLower(scheme)[4] == 'e' && ToLower(scheme)[5] == 'r';
    }
    SchemeCaseInsensitive(scheme, "x");
    assert scheme + " " + "x" == "BEARER x";
  }

  /** A header that ends at the space passes the empty token. */
  lemma EmptyToken()
    ensures Extract("bearer ") == Token("")
  {
    assert ToLower("bearer") == "bearer";
    SchemeCaseInsensitive("bearer", "");
  }

  /** A header with no space, or with another scheme, is rejected without
      consulting the validator. */
  lemma RejectedHeaderSkipsValidator(header: string, validate: string -> Outcome, other: string -> Outcome)
    requires Extract(header).Rejected?
    ensures Handle(header, validate) == Handle(header, other) == Outcome(Invalid(Extract(header).message), None)
    ensures Extract(header).message == MissingHeader || Extract(header).message == ExpectedBearer
  {
  }

  /** A non-empty header without a space is rejected as not a bearer token. */
  lemma NoSpaceRejected(header: string)
    requires header != ""
    requires forall i :: 0 <= i < |header| ==> header[i] != ' '
    ensures Extract(header) == Rejected(ExpectedBearer)
  {
  }

  /** Once the header carries a token, a validator error is wrapped with a
      zero `Validation`, and any other answer is returned unchanged. */
  lemma TokenReachesValidator(header: string, validate: string -> Outcome)
    requires Extract(header).Token?
    ensures var answer := validate(Extract(header).token);
            && (answer.err.Some? ==> Handle(header, validate) == Outcome(Zero, Some("validate token: " + answer.err.value)))
            && (answer.err.None? ==> Handle(header, validate) == answer)
  {
  }

  // ---------------------------------------------------------------------
  // The handler over the configured JWT validator

  /** `Handler`, with the header value `header` (`Header.Get` reads a
      missing header as ""), delegating to the JWT validator `validator`. */
  method Handler(validator: Jwt.Config, env: Jwt.Env, header: string) returns (v: Validation, err: Option<string>)
    requires validator.Valid()
    modifies validator.issuers.Values
    ensures Extract(header).Rejected? ==>
              Outcome(v, err) == Outcome(Invalid(Extract(header).message), None)
              && validator.Cache() == old(validator.Cache())
    ensures Extract(header).Token? ==>
              var r := Jwt.Evaluate(validator.Configured(), old(validator.Cache()), env, Extract(header).token);
              Outcome(v, err) == Reported(Outcome(r.validation, r.err)) && validator.Cache() == r.cache
  {
    if header == "" {
      return Invalid(MissingHeader), None;
    }
    var auth := SplitOnce(header);
    if |auth| != 2 || ToLower(auth[0]) != "bearer" {
      return Invalid(ExpectedBearer), None;
    }
    var validation, e := validator.Validate(env, auth[1]);
    if e.Some? {
      return Zero, Some("validate token: " + e.value);
    }
    return validation, None;
  }
}
