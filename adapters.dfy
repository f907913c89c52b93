/** The decode step shared by every `Input` and `Output` entry of the
    gateway's configuration: decode the envelope, pick the concrete type by
    the `type` string, re-marshal the `config` member and decode it again
    into the chosen type. */
module Adapters {
  import opened Wrappers
  import opened Values
  import opened GoStrings

  /** An entry as first decoded: type, name, path and undecoded config. */
  datatype Envelope = Envelope(typeName: string, name: string, path: string, config: Json)

  /** What a decoded entry holds: the envelope's type, name and path, and
      the concrete config. */
  datatype Adapter<C> = Adapter(typeName: string, name: string, path: string, config: C)

  function EnvelopeFailure(kind: string, e: string): string {
    "unmarshal " + kind + ": " + e
  }

  function MarshalFailure(e: string): string {
    "re-marshal config: " + e
  }

  function ConfigFailure(kind: string, e: string): string {
    "unmarshal " + kind + " config: " + e
  }

  function UnknownType(kind: string, t: string): string {
    "unmarshal " + kind + ": unknown type " + Quote(t)
  }

  /** `UnmarshalYAML` of an entry of kind `kind` ("Input" or "Output"):
      `types` is the type switch, `marshal` is `yaml.Marshal`, and `decode`
      is `yaml.Unmarshal` into a fresh value of the chosen type. The first
      failing step decides the error. */
  function Unwrap<T, C>(kind: string, wrapper: Result<Envelope>, types: string -> Option<T>,
                        marshal: Json -> Result<string>, decode: (T, string) -> Result<C>): Result<Adapter<C>>
  {
    match wrapper
    case Failure(e) => Failure(EnvelopeFailure(kind, e))
    case Success(w) =>
      match types(w.typeName)
      case None => Failure(UnknownType(kind, w.typeName))
      case Some(t) =>
        match marshal(w.config)
        case Failure(e) => Failure(MarshalFailure(e))
        case Success(b) =>
          match decode(t, b)
          case Failure(e) => Failure(ConfigFailure(kind, e))
          case Success(c) => Success(Adapter(w.typeName, w.name, w.path, c))
  }

  /** Decoding succeeds exactly when every step does, and then the type,
      name and path are the envelope's, and the config is what the second
      decode produced for the selected type. */
  lemma UnwrapSuccess<T, C>(kind: string, wrapper: Result<Envelope>, types: string -> Option<T>,
                            marshal: Json -> Result<string>, decode: (T, string) -> Result<C>)
    ensures Unwrap(kind, wrapper, types, marshal, decode).Success? <==>
              && wrapper.Success? && types(wrapper.value.typeName).Some?
              && marshal(wrapper.value.config).Success?
              && decode(types(wrapper.value.typeName).value, marshal(wrapper.value.config).value).Success?
    ensures Unwrap(kind, wrapper, types, marshal, decode).Success? ==>
              var a, w := Unwrap(kind, wrapper, types, marshal, decode).value, wrapper.value;
              && a.typeName == w.typeName && a.name == w.name && a.path == w.path
              && a.config == decode(types(w.typeName).value, marshal(w.config).value).value
  {
  }

  /** The errors, in the order the steps run. An envelope failure is
      reported before the type is looked at. */
  lemma UnwrapFailures<T, C>(kind: string, wrapper: Result<Envelope>, types: string -> Option<T>,
                             marshal: Json -> Result<string>, decode: (T, string) -> Result<C>)
    ensures wrapper.Failure? ==>
              Unwrap(kind, wrapper, types, marshal, decode) == Failure("unmarshal " + kind + ": " + wrapper.error)
    ensures (wrapper.Success? && types(wrapper.value.typeName).None?) ==>
              Unwrap(kind, wrapper, types, marshal, decode) == Failure(UnknownType(kind, wrapper.value.typeName))
    ensures (&& wrapper.Success? && types(wrapper.value.typeName).Some?
             && marshal(wrapper.value.config).Failure?) ==>
              Unwrap(kind, wrapper, types, marshal, decode) == Failure("re-marshal config: " + marshal(wrapper.value.config).error)
    ensures (&& wrapper.Success? && types(wrapper.value.typeName).Some?
             && marshal(wrapper.value.config).Success?
             && decode(types(wrapper.value.typeName).value, marshal(wrapper.value.config).value).Failure?) ==>
              Unwrap(kind, wrapper, types, marshal, decode)
                == Failure("unmarshal " + kind + " config: "
                           + decode(types(wrapper.value.typeName).value, marshal(wrapper.value.config).value).error)
  {
  }

  /** The unknown-type message names the offending type: the quoted text
      after its fixed part reads back as the type. */
  lemma UnknownTypeNamed(kind: string, t: string)
    ensures var m, lead := UnknownType(kind, t), "unmarshal " + kind + ": unknown type ";
            HasPrefix(m, lead) && Unquote(m[|lead|..]) == Some(t)
  {
    var lead := "unmarshal " + kind + ": unknown type ";
    var m := UnknownType(kind, t);
    assert m == lead + Quote(t);
    assert m[..|lead|] == lead;
    assert m[|lead|..] == Quote(t);
    UnquoteQuote(t);
  }
}
