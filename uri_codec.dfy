/** encodeURIComponent and decodeURIComponent, taken as a pair of opaque
    functions. decodeURIComponent throws URIError on malformed input, which
    is a None result here. */
module UriCodec {
  import opened Wrappers

  datatype Codec = Codec(encode: string -> string, decode: string -> Option<string>)

  /** What the model relies on: decoding undoes encoding, and only the empty
      string encodes to the empty string. */
  ghost predicate IsInverse(c: Codec) {
    (forall s :: c.decode(c.encode(s)) == Some(s))
    && (forall s :: c.encode(s) == "" <==> s == "")
  }
}
