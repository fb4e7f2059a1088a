/**
 * Shared vocabulary of the session package: bytes, the session table
 * (SessionData), the package's errors, and the binary codec seen from the
 * outside as a pair of total functions. The codec itself (MessagePack) is not
 * modelled: encode may fail, and decode has three outcomes, one of which is
 * the distinguished "end of input" (io.EOF) that every caller tolerates.
 */
module Codec {

  newtype byte = x: int | 0 <= x < 256

  type Bytes = seq<byte>

  /** The raw table of a session: key to encoded value. */
  type SessionData = map<string, Bytes>

  datatype Error =
    | NotStarted                    // ErrNotStarted
    | HandlerFault(reason: string)  // any error a Handler returns
    | CodecFault(reason: string)    // any encode/decode error other than EOF

  datatype Option<+T> = None | Some(value: T)

  datatype Result<+T> = Success(value: T) | Failure(error: Error)

  /** What a decode call yields: a value, end of input, or another error. */
  datatype Decoded<+T> = Value(value: T) | EOF | Malformed(error: Error)

  datatype Codec<!T> = Codec(encode: T -> Result<Bytes>, decode: Bytes -> Decoded<T>)

  /** A codec that gives back, on decode, every value it managed to encode. */
  ghost predicate RoundTrips<T(!new)>(c: Codec<T>)
  {
    forall x :: c.encode(x).Success? ==> c.decode(c.encode(x).value) == Value(x)
  }

  /**
   * The source's `err != nil && err != io.EOF` test after an unmarshal into a
   * destination holding `dest`: EOF leaves the destination as it was and is
   * not an error, any other decode error is.
   */
  function DecodeOr<T>(d: Decoded<T>, dest: T): (r: Result<T>)
    ensures r.Failure? <==> d.Malformed?
    ensures r.Success? ==> r.value == (if d.Value? then d.value else dest)
    ensures d.Malformed? ==> r.error == d.error
  {
    match d
    case Value(v) => Success(v)
    case EOF => Success(dest)
    case Malformed(e) => Failure(e)
  }

  /** Unmarshal of a stored blob into a freshly made, empty SessionData. */
  function LoadTable(blob: Bytes, tables: Codec<SessionData>): (r: Result<SessionData>)
    ensures tables.decode(blob).EOF? ==> r == Success(map[])
    ensures tables.decode(blob).Value? ==> r == Success(tables.decode(blob).value)
    ensures r.Failure? <==> tables.decode(blob).Malformed?
    ensures r.Failure? ==> r.error == tables.decode(blob).error
  {
    DecodeOr(tables.decode(blob), map[])
  }

  /** Every table the codec writes, LoadTable reads back unchanged. */
  lemma LoadTableRoundTrip(tables: Codec<SessionData>, t: SessionData)
    requires RoundTrips(tables)
    requires tables.encode(t).Success?
    ensures LoadTable(tables.encode(t).value, tables) == Success(t)
  {
  }
}
