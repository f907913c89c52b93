/** `Issuer.parsePublicKey` without its final write: the file read, the
    PEM decode and the PKIX parse, each of which can fail. */
module PublicKeys {
  import opened Wrappers
  import opened Jose

  /** The library calls `parsePublicKey` makes, supplied by the caller. */
  datatype KeySource = KeySource(
    /** `ioutil.ReadFile`. */
    readFile: string -> Result<seq<bv8>>,
    /** `pem.Decode`: the bytes of the first PEM block, or `None` when there
        is no block. */
    pemDecode: seq<bv8> -> Option<seq<bv8>>,
    /** `x509.ParsePKIXPublicKey`. */
    parsePkix: seq<bv8> -> Result<PublicKey>)

  const PemError: string := "failed to read PEM block"

  /** The key `parsePublicKey` would store for the file at `path`, or the
      error it returns: the first failing step decides. */
  function LoadKey(src: KeySource, path: string): (r: Result<PublicKey>)
    ensures src.readFile(path).Failure? ==> r == Failure(src.readFile(path).error)
    ensures (src.readFile(path).Success? && src.pemDecode(src.readFile(path).value).None?)
              ==> r == Failure(PemError)
    ensures r.Success? <==>
              && src.readFile(path).Success?
              && src.pemDecode(src.readFile(path).value).Some?
              && src.parsePkix(src.pemDecode(src.readFile(path).value).value).Success?
    ensures r.Success? ==> r.value == src.parsePkix(src.pemDecode(src.readFile(path).value).value).value
  {
    match src.readFile(path)
    case Failure(e) => Failure(e)
    case Success(contents) =>
      match src.pemDecode(contents)
      case None => Failure(PemError)
      case Some(block) => src.parsePkix(block)
  }

  /** The key a validator uses for an issuer whose cached key is `cached`:
      the cached key when there is one, and a freshly loaded one otherwise
      (the `if issuer.PublicKey == nil` guard). */
  function KeyFor(cached: Option<PublicKey>, src: KeySource, path: string): (r: Result<PublicKey>)
    ensures cached.Some? ==> r == Success(cached.value)
    ensures cached.None? ==> r == LoadKey(src, path)
  {
    if cached.Some? then Success(cached.value) else LoadKey(src, path)
  }

  /** Once a key is cached, neither the key file nor the parsing libraries
      are consulted again. */
  lemma CachedKeyIgnoresSource(key: PublicKey, src: KeySource, other: KeySource, path: string)
    ensures KeyFor(Some(key), src, path) == KeyFor(Some(key), other, path) == Success(key)
  {
  }
}
