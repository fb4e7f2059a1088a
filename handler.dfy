/**
 * The persistence Handler (Init, Read, Write, GC), as an in-memory fake.
 * Persisted blobs live in a map; the calls that fail are configured up front
 * in `faults`; every call is appended to `calls`, so that the session code's
 * contracts can say which Handler operations ran, and in what order.
 */
module Handlers {
  import opened Codec

  datatype Call =
    | InitCall(id: string)
    | ReadCall(id: string)
    | WriteCall(id: string, data: Bytes)
    | GCCall(maxLifeTime: int)

  class Handler {
    var blobs: map<string, Bytes>
    var faults: map<Call, string>
    var calls: seq<Call>

    constructor (blobs: map<string, Bytes>, faults: map<Call, string>)
      ensures this.blobs == blobs && this.faults == faults && calls == []
    {
      this.blobs := blobs;
      this.faults := faults;
      calls := [];
    }

    /** The error the call `c` returns, if it is configured to fail. */
    function Fault(c: Call): (r: Option<Error>)
      reads this
      ensures r.Some? <==> c in faults
      ensures r.Some? ==> r.value == HandlerFault(faults[c])
    {
      if c in faults then Some(HandlerFault(faults[c])) else None
    }

    /** What Read returns for an id with no blob: no bytes, which decodes as EOF. */
    function Stored(id: string): (b: Bytes)
      reads this
      ensures id in blobs ==> b == blobs[id]
      ensures id !in blobs ==> b == []
    {
      if id in blobs then blobs[id] else []
    }

    /** The bytes Read returns for `id`: none when the Read fails. */
    function ReadBytes(id: string): (b: Bytes)
      reads this
      ensures ReadCall(id) in faults ==> b == []
      ensures ReadCall(id) !in faults ==> b == Stored(id)
    {
      if Fault(ReadCall(id)).Some? then [] else Stored(id)
    }

    method Init(id: string) returns (err: Option<Error>)
      modifies this`calls
      ensures calls == old(calls) + [InitCall(id)]
      ensures err == Fault(InitCall(id))
    {
      calls := calls + [InitCall(id)];
      err := Fault(InitCall(id));
    }

    /** Like the source's Read, returns bytes and an error; the bytes are empty on error. */
    method Read(id: string) returns (data: Bytes, err: Option<Error>)
      modifies this`calls
      ensures calls == old(calls) + [ReadCall(id)]
      ensures err == Fault(ReadCall(id))
      ensures data == ReadBytes(id)
    {
      calls := calls + [ReadCall(id)];
      err := Fault(ReadCall(id));
      data := if err.Some? then [] else Stored(id);
    }

    method Write(id: string, data: Bytes) returns (err: Option<Error>)
      modifies this`calls, this`blobs
      ensures calls == old(calls) + [WriteCall(id, data)]
      ensures err == Fault(WriteCall(id, data))
      ensures blobs == if err.Some? then old(blobs) else old(blobs)[id := data]
    {
      calls := calls + [WriteCall(id, data)];
      err := Fault(WriteCall(id, data));
      if err.None? {
        blobs := blobs[id := data];
      }
    }

    /** Expiry of persisted blobs is the backend's business; the fake only records the call. */
    method GC(maxLifeTime: int) returns (err: Option<Error>)
      modifies this`calls
      ensures calls == old(calls) + [GCCall(maxLifeTime)]
      ensures err == Fault(GCCall(maxLifeTime))
    {
      calls := calls + [GCCall(maxLifeTime)];
      err := Fault(GCCall(maxLifeTime));
    }
  }

  /**
   * What reading and unmarshalling the blob of `id` yields: the Read error,
   * the decode error other than EOF, or the table (empty on EOF).
   */
  ghost function Loaded(h: Handler, id: string, tables: Codec<SessionData>): (r: Result<SessionData>)
    reads h
    ensures h.Fault(ReadCall(id)).Some? ==> r == Failure(h.Fault(ReadCall(id)).value)
    ensures h.Fault(ReadCall(id)).None? ==> r == LoadTable(h.Stored(id), tables)
  {
    var readErr := h.Fault(ReadCall(id));
    if readErr.Some? then Failure(readErr.value) else LoadTable(h.ReadBytes(id), tables)
  }
}
