/** The `Input` and `Output` entries as the `internal` package decodes
    them. Inputs are decoded exactly as in the `config` package; outputs
    also accept the type "Identity". */
module InternalConfig {
  import opened Wrappers
  import opened Values
  import opened GoStrings
  import opened Adapters
  import AdapterConfig
  import TokenReviewOutput

  /** The YAML calls of the `config` package, and `yaml.Unmarshal` into an
      `Identity` output, which holds no fields: `Some` is its error. */
  datatype Yaml = Yaml(base: AdapterConfig.Yaml, identity: string -> Option<string>)

  datatype OutputType = IdentityOutput | KubernetesTokenReviewOutput

  /** The output type switch. */
  function OutputTypeOf(t: string): (k: Option<OutputType>)
    ensures k.Some? <==> t == "Identity" || t == "KubernetesTokenReview"
    ensures k == Some(IdentityOutput) <==> t == "Identity"
    ensures k == Some(KubernetesTokenReviewOutput) <==> t == "KubernetesTokenReview"
  {
    if t == "Identity" then Some(IdentityOutput)
    else if t == "KubernetesTokenReview" then Some(KubernetesTokenReviewOutput)
    else None
  }

  /** The decoded output configs, one per output type. */
  datatype OutputConfig = Identity | TokenReview(settings: TokenReviewOutput.Settings)

  /** The second decode, against the selected type's config. */
  function DecodeOutputConfig(k: OutputType, b: string, yaml: Yaml): (r: Result<OutputConfig>)
    ensures r.Success? ==> (k == IdentityOutput <==> r.value == Identity)
  {
    match k
    case IdentityOutput =>
      (match yaml.identity(b) case Some(e) => Failure(e) case None => Success(Identity))
    case KubernetesTokenReviewOutput =>
      (match yaml.base.tokenReviewOutput(b) case Failure(e) => Failure(e) case Success(s) => Success(TokenReview(s)))
  }

  /** `Output.UnmarshalYAML`, given what the envelope decode returned. */
  function DecodeOutput(wrapper: Result<Envelope>, yaml: Yaml): Result<Adapter<OutputConfig>> {
    Unwrap("Output", wrapper, OutputTypeOf, yaml.base.marshal, (k: OutputType, b: string) => DecodeOutputConfig(k, b, yaml))
  }

  /** Outputs accept exactly "Identity" and "KubernetesTokenReview", each
      mapped to its own config type; any other type is refused by name. */
  lemma OutputTypes(wrapper: Result<Envelope>, yaml: Yaml)
    ensures DecodeOutput(wrapper, yaml).Success? ==>
              && wrapper.Success?
              && (wrapper.value.typeName == "Identity" || wrapper.value.typeName == "KubernetesTokenReview")
              && (DecodeOutput(wrapper, yaml).value.config == Identity <==> wrapper.value.typeName == "Identity")
              && (DecodeOutput(wrapper, yaml).value.config.TokenReview? <==> wrapper.value.typeName == "KubernetesTokenReview")
    ensures (wrapper.Success? && wrapper.value.typeName != "Identity" && wrapper.value.typeName != "KubernetesTokenReview") ==>
              DecodeOutput(wrapper, yaml) == Failure(UnknownType("Output", wrapper.value.typeName))
  {
  }

  /** An "Identity" entry decodes whenever its re-marshalled config decodes
      into the empty `Identity` struct. */
  lemma IdentitySelected(w: Envelope, yaml: Yaml)
    requires w.typeName == "Identity" && yaml.base.marshal(w.config).Success?
    requires yaml.identity(yaml.base.marshal(w.config).value).None?
    ensures DecodeOutput(Success(w), yaml) == Success(Adapter("Identity", w.name, w.path, Identity))
  {
  }

  /** An `Output` entry: written once, on success. */
  class Output {
    var typeName: string
    var name: string
    var path: string
    var config: Option<OutputConfig>

    /** Go's zero `Output`. */
    constructor ()
      ensures typeName == "" && name == "" && path == "" && config.None?
    {
      typeName, name, path, config := "", "", "", None;
    }

    method UnmarshalYAML(wrapper: Result<Envelope>, yaml: Yaml) returns (err: Option<string>)
      modifies this
      ensures DecodeOutput(wrapper, yaml).Failure? ==>
                err == Some(DecodeOutput(wrapper, yaml).error)
                && typeName == old(typeName) && name == old(name) && path == old(path) && config == old(config)
      ensures DecodeOutput(wrapper, yaml).Success? ==>
                var a := DecodeOutput(wrapper, yaml).value;
                && err.None? && typeName == a.typeName && name == a.name && path == a.path
                && config == Some(a.config)
    {
      if wrapper.Failure? {
        return Some(EnvelopeFailure("Output", wrapper.error));
      }
      var w := wrapper.value;
      var kind := OutputTypeOf(w.typeName);
      if kind.None? {
        return Some(UnknownType("Output", w.typeName));
      }
      var b := yaml.base.marshal(w.config);
      if b.Failure? {
        return Some(MarshalFailure(b.error));
      }
      var decoded: OutputConfig;
      if kind.value == IdentityOutput {
        var e := yaml.identity(b.value);
        if e.Some? {
          return Some(ConfigFailure("Output", e.value));
        }
        decoded := Identity;
      } else {
        var settings := yaml.base.tokenReviewOutput(b.value);
        if settings.Failure? {
          return Some(ConfigFailure("Output", settings.error));
        }
        decoded := TokenReview(settings.value);
      }
      typeName, name, path, config := w.typeName, w.name, w.path, Some(decoded);
      return None;
    }
  }
}
