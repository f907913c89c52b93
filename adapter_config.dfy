/** The `Input` and `Output` entries of the configuration file as the
    `config` package decodes them: each accepts the single type
    "KubernetesTokenReview". */
module AdapterConfig {
  import opened Wrappers
  import opened Values
  import opened GoStrings
  import opened Adapters
  import TokenReviewInput
  import TokenReviewOutput

  /** The YAML calls made after the envelope is decoded: `yaml.Marshal`,
      and `yaml.Unmarshal` into each concrete config type. */
  datatype Yaml = Yaml(
    marshal: Json -> Result<string>,
    tokenReviewInput: string -> Result<TokenReviewInput.Settings>,
    tokenReviewOutput: string -> Result<TokenReviewOutput.Settings>)

  datatype InputType = KubernetesTokenReviewInput
  datatype OutputType = KubernetesTokenReviewOutput

  /** The input type switch. */
  function InputTypeOf(t: string): (k: Option<InputType>)
    ensures k.Some? <==> t == "KubernetesTokenReview"
  {
    if t == "KubernetesTokenReview" then Some(KubernetesTokenReviewInput) else None
  }

  /** The output type switch. */
  function OutputTypeOf(t: string): (k: Option<OutputType>)
    ensures k.Some? <==> t == "KubernetesTokenReview"
  {
    if t == "KubernetesTokenReview" then Some(KubernetesTokenReviewOutput) else None
  }

  /** `Input.UnmarshalYAML`, given what the envelope decode returned. */
  function DecodeInput(wrapper: Result<Envelope>, yaml: Yaml): Result<Adapter<TokenReviewInput.Settings>> {
    Unwrap("Input", wrapper, InputTypeOf, yaml.marshal, (k: InputType, b: string) => yaml.tokenReviewInput(b))
  }

  /** `Output.UnmarshalYAML`, given what the envelope decode returned. */
  function DecodeOutput(wrapper: Result<Envelope>, yaml: Yaml): Result<Adapter<TokenReviewOutput.Settings>> {
    Unwrap("Output", wrapper, OutputTypeOf, yaml.marshal, (k: OutputType, b: string) => yaml.tokenReviewOutput(b))
  }

  /** Only "KubernetesTokenReview" inputs are accepted; any other type is
      refused by name. */
  lemma InputTypes(wrapper: Result<Envelope>, yaml: Yaml)
    ensures DecodeInput(wrapper, yaml).Success? ==> wrapper.Success? && wrapper.value.typeName == "KubernetesTokenReview"
    ensures (wrapper.Success? && wrapper.value.typeName != "KubernetesTokenReview") ==>
              DecodeInput(wrapper, yaml) == Failure(UnknownType("Input", wrapper.value.typeName))
  {
  }

  /** Only "KubernetesTokenReview" outputs are accepted; any other type is
      refused by name. */
  lemma OutputTypes(wrapper: Result<Envelope>, yaml: Yaml)
    ensures DecodeOutput(wrapper, yaml).Success? ==> wrapper.Success? && wrapper.value.typeName == "KubernetesTokenReview"
    ensures (wrapper.Success? && wrapper.value.typeName != "KubernetesTokenReview") ==>
              DecodeOutput(wrapper, yaml) == Failure(UnknownType("Output", wrapper.value.typeName))
  {
  }

  /** A failure of the second decode is an error, and no adapter results. */
  lemma InputConfigFailure(w: Envelope, yaml: Yaml)
    requires w.typeName == "KubernetesTokenReview" && yaml.marshal(w.config).Success?
    requires yaml.tokenReviewInput(yaml.marshal(w.config).value).Failure?
    ensures DecodeInput(Success(w), yaml)
              == Failure("unmarshal Input config: " + yaml.tokenReviewInput(yaml.marshal(w.config).value).error)
  {
  }

  lemma OutputConfigFailure(w: Envelope, yaml: Yaml)
    requires w.typeName == "KubernetesTokenReview" && yaml.marshal(w.config).Success?
    requires yaml.tokenReviewOutput(yaml.marshal(w.config).value).Failure?
    ensures DecodeOutput(Success(w), yaml)
              == Failure("unmarshal Output config: " + yaml.tokenReviewOutput(yaml.marshal(w.config).value).error)
  {
  }

  /** An `Input` entry: written once, on success, with the envelope's type,
      name and path and a freshly decoded `KubernetesTokenReview` input. */
  class Input {
    var typeName: string
    var name: string
    var path: string
    var config: Option<TokenReviewInput.KubernetesTokenReview>

    /** Go's zero `Input`. */
    constructor ()
      ensures typeName == "" && name == "" && path == "" && config.None?
    {
      typeName, name, path, config := "", "", "", None;
    }

    method UnmarshalYAML(wrapper: Result<Envelope>, yaml: Yaml) returns (err: Option<string>)
      modifies this
      ensures DecodeInput(wrapper, yaml).Failure? ==>
                err == Some(DecodeInput(wrapper, yaml).error)
                && typeName == old(typeName) && name == old(name) && path == old(path) && config == old(config)
      ensures DecodeInput(wrapper, yaml).Success? ==>
                var a := DecodeInput(wrapper, yaml).value;
                && err.None? && typeName == a.typeName && name == a.name && path == a.path
                && config.Some? && fresh(config.value) && config.value.Valid()
                && config.value.Configured() == a.config
                && forall n :: n in config.value.Cache() ==> config.value.Cache()[n].None?
    {
      if wrapper.Failure? {
        return Some(EnvelopeFailure("Input", wrapper.error));
      }
      var w := wrapper.value;
      var kind := InputTypeOf(w.typeName);
      if kind.None? {
        return Some(UnknownType("Input", w.typeName));
      }
      var b := yaml.marshal(w.config);
      if b.Failure? {
        return Some(MarshalFailure(b.error));
      }
      var settings := yaml.tokenReviewInput(b.value);
      if settings.Failure? {
        return Some(ConfigFailure("Input", settings.error));
      }
      var input := new TokenReviewInput.KubernetesTokenReview(settings.value);
      typeName, name, path, config := w.typeName, w.name, w.path, Some(input);
      return None;
    }
  }

  /** An `Output` entry: written once, on success, with the envelope's type,
      name and path and the decoded `KubernetesTokenReview` output. */
  class Output {
    var typeName: string
    var name: string
    var path: string
    var config: Option<TokenReviewOutput.Settings>

    /** Go's zero `Output`. */
    constructor ()
      ensures typeName == "" && name == "" && path == "" && config.None?
    {
      typeName, name, path, config := "", "", "", None;
    }

    method UnmarshalYAML(wrapper: Result<Envelope>, yaml: Yaml) returns (err: Option<string>)
      modifies this
      ensures DecodeOutput(wrapper, yaml).Failure? ==>
                err == Some(DecodeOutput(wrapper, yaml).error)
                && typeName == old(typeName) && name == old(name) && path == old(path) && config == old(config)
      ensures DecodeOutput(wrapper, yaml).Success? ==>
                var a := DecodeOutput(wrapper, yaml).value;
                && err.None? && typeName == a.typeName && name == a.name && path == a.path
                && config == Some(a.config)
    {
      if wrapper.Failure? {
        return Some(EnvelopeFailure("Output", wrapper.error));
      }
      var w := wrapper.value;
      var kind := OutputTypeOf(w.typeName);
      if kind.None? {
        return Some(UnknownType("Output", w.typeName));
      }
      var b := yaml.marshal(w.config);
      if b.Failure? {
        return Some(MarshalFailure(b.error));
      }
      var settings := yaml.tokenReviewOutput(b.value);
      if settings.Failure? {
        return Some(ConfigFailure("Output", settings.error));
      }
      typeName, name, path, config := w.typeName, w.name, w.path, Some(settings.value);
      return None;
    }
  }
}
