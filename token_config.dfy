/** `token.Config`: the validator a bearer input uses, chosen by the `type`
    of its YAML entry; "JWT" is the only type. */
module TokenConfig {
  import opened Wrappers
  import opened Values
  import opened GoStrings
  import Jwt

  /** The YAML entry as first decoded: its type and its undecoded config. */
  datatype Envelope = Envelope(typeName: string, config: Json)

  /** The YAML calls made after the envelope is decoded: `yaml.Marshal` of
      the config, and `yaml.Unmarshal` of the result into a `jwt.Config`. */
  datatype Yaml = Yaml(marshal: Json -> Result<string>, jwt: string -> Result<Jwt.Settings>)

  /** The validator types. */
  datatype Kind = JWT

  /** The type switch. */
  function KindOf(t: string): (k: Option<Kind>)
    ensures k.Some? <==> t == "JWT"
  {
    if t == "JWT" then Some(JWT) else None
  }

  /** What decoding a `Kind`'s config yields. */
  datatype Validator = JwtValidator(settings: Jwt.Settings)

  /** The second decode, against the selected type's config. */
  function DecodeConfig(k: Kind, b: string, yaml: Yaml): Result<Validator> {
    match k
    case JWT => match yaml.jwt(b) case Failure(e) => Failure(e) case Success(s) => Success(JwtValidator(s))
  }

  /** What `UnmarshalYAML` writes on success: the entry's type and its
      decoded validator. */
  datatype Decoded = Decoded(typeName: string, validator: Validator)

  function UnknownType(t: string): string {
    "unmarshal Token: unknown type " + Quote(t)
  }

  /** `UnmarshalYAML`, given what the envelope decode returned: the first
      failing step decides the error. */
  function Decode(wrapper: Result<Envelope>, yaml: Yaml): Result<Decoded> {
    match wrapper
    case Failure(e) => Failure("unmarshal Token: " + e)
    case Success(w) =>
      match KindOf(w.typeName)
      case None => Failure(UnknownType(w.typeName))
      case Some(k) =>
        match yaml.marshal(w.config)
        case Failure(e) => Failure("re-marshal config: " + e)
        case Success(b) =>
          match DecodeConfig(k, b, yaml)
          case Failure(e) => Failure("unmarshal " + w.typeName + " config: " + e)
          case Success(v) => Success(Decoded(w.typeName, v))
  }

  // ---------------------------------------------------------------------
  // Properties of the dispatch

  /** Decoding succeeds exactly when the envelope decodes, its type is
      "JWT", and both YAML steps succeed; it then selects a JWT validator
      with the decoded settings and keeps the entry's type. */
  lemma DecodeSuccess(wrapper: Result<Envelope>, yaml: Yaml)
    ensures Decode(wrapper, yaml).Success? <==>
              && wrapper.Success? && wrapper.value.typeName == "JWT"
              && yaml.marshal(wrapper.value.config).Success?
              && yaml.jwt(yaml.marshal(wrapper.value.config).value).Success?
    ensures Decode(wrapper, yaml).Success? ==>
              && Decode(wrapper, yaml).value.typeName == wrapper.value.typeName == "JWT"
              && Decode(wrapper, yaml).value.validator
                   == JwtValidator(yaml.jwt(yaml.marshal(wrapper.value.config).value).value)
  {
  }

  /** An envelope failure is reported before any dispatch: the YAML calls
      after it make no difference. */
  lemma EnvelopeFailureFirst(e: string, yaml: Yaml, other: Yaml)
    ensures Decode(Failure(e), yaml) == Decode(Failure(e), other) == Failure("unmarshal Token: " + e)
  {
  }

  /** Any type but "JWT" is refused with a message that names it: the
      quoted text after the fixed part reads back as the type. */
  lemma UnknownTypeRefused(w: Envelope, yaml: Yaml)
    requires w.typeName != "JWT"
    ensures Decode(Success(w), yaml) == Failure(UnknownType(w.typeName))
    ensures var m, lead := Decode(Success(w), yaml).error, "unmarshal Token: unknown type ";
            HasPrefix(m, lead) && Unquote(m[|lead|..]) == Some(w.typeName)
  {
    var lead := "unmarshal Token: unknown type ";
    var m := UnknownType(w.typeName);
    assert m[..|lead|] == lead;
    assert m[|lead|..] == Quote(w.typeName);
    UnquoteQuote(w.typeName);
  }

  /** A failure of the second decode names the type it was decoding. */
  lemma ConfigFailureNamesType(w: Envelope, yaml: Yaml)
    requires w.typeName == "JWT" && yaml.marshal(w.config).Success?
    requires yaml.jwt(yaml.marshal(w.config).value).Failure?
    ensures Decode(Success(w), yaml) == Failure("unmarshal JWT config: " + yaml.jwt(yaml.marshal(w.config).value).error)
  {
  }

  // ---------------------------------------------------------------------
  // The receiver

  /** A `token.Config`: the type and, once decoded, the JWT validator. */
  class Config {
    var typeName: string
    var validator: Option<Jwt.Config>

    /** Go's zero `Config`. */
    constructor ()
      ensures typeName == "" && validator.None?
    {
      typeName, validator := "", None;
    }

    /** `UnmarshalYAML`. The receiver is written once, on success; on any
        error it keeps its old value. */
    method UnmarshalYAML(wrapper: Result<Envelope>, yaml: Yaml) returns (err: Option<string>)
      modifies this
      ensures Decode(wrapper, yaml).Failure? ==>
                err == Some(Decode(wrapper, yaml).error) && typeName == old(typeName) && validator == old(validator)
      ensures Decode(wrapper, yaml).Success? ==>
                && err.None? && typeName == Decode(wrapper, yaml).value.typeName
                && validator.Some? && fresh(validator.value) && validator.value.Valid()
                && validator.value.Configured() == Decode(wrapper, yaml).value.validator.settings
                && forall n :: n in validator.value.Cache() ==> validator.value.Cache()[n].None?
    {
      if wrapper.Failure? {
        return Some("unmarshal Token: " + wrapper.error);
      }
      var w := wrapper.value;
      var kind := KindOf(w.typeName);
      if kind.None? {
        return Some(UnknownType(w.typeName));
      }
      var b := yaml.marshal(w.config);
      if b.Failure? {
        return Some("re-marshal config: " + b.error);
      }
      var decoded := DecodeConfig(kind.value, b.value, yaml);
      if decoded.Failure? {
        return Some("unmarshal " + w.typeName + " config: " + decoded.error);
      }
      var config := new Jwt.Config(decoded.value.settings);
      typeName, validator := w.typeName, Some(config);
      return None;
    }
  }
}
