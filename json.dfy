/** Byte streams, JSON values and the abstract JSON codec (Go's
    encoding/json, whose code is not part of this model). */
module Json {
  import opened Wrappers
  import opened Errors

  newtype uint8 = x: int | 0 <= x < 256

  /** The contents of an `io.Reader` or a `bytes.Buffer`. */
  type Bytes = seq<uint8>

  /** A Go `float64`, kept as its IEEE-754 bit pattern; never computed with. */
  datatype Float64 = Float64(bits: bv64)

  /** The value behind an `interface{}` as encoding/json fills it in. */
  datatype JsonValue =
    | Null
    | Bool(b: bool)
    | Number(n: Float64)
    | String(s: string)
    | Array(elements: seq<JsonValue>)
    | Object(members: map<string, JsonValue>)

  /** What `json.NewDecoder(r).Decode(&v)` leaves behind: the new contents of
      `v` and the error it returned (`None` for nil). */
  datatype DecodeStep<T> = DecodeStep(target: T, err: Option<Error>)

  /** Decoding a stream into a value that already holds `T`. */
  type Decoder<!T> = (T, Bytes) -> DecodeStep<T>

  /** `json.NewEncoder(&b).Encode(v)`: the bytes written to `b`, or the error. */
  type Encoder<-T> = T -> Result<Bytes, Error>

  /** encoding/json's documented behaviour at end of input: it reports `io.EOF`
      before it has stored anything into the target. */
  ghost predicate KeepsTargetOnEOF<T(!new)>(decode: Decoder<T>)
  {
    forall t: T, b: Bytes :: decode(t, b).err == Some(EOF) ==> decode(t, b).target == t
  }
}
