/**
 * The Store of store.go: one session id over a Handler, with a two-tier
 * cache. `data` is the raw table (key to encoded bytes) as last loaded or
 * merged, `decoded` holds values already decoded by Get or written by Put.
 * Encoding into `data` is deferred until Save.
 */
module SessionStore {
  import opened Codec
  import opened Handlers

  /** Every cached value can be encoded. */
  ghost predicate AllEncodable<V>(m: map<string, V>, c: Codec<V>)
  {
    forall k :: k in m ==> c.encode(m[k]).Success?
  }

  /** The raw table holding the encoding of every cached value. */
  function Encoded<V>(m: map<string, V>, c: Codec<V>): (t: SessionData)
    requires AllEncodable(m, c)
    ensures t.Keys == m.Keys
    ensures forall k :: k in t ==> c.encode(m[k]) == Success(t[k])
  {
    map k | k in m :: c.encode(m[k]).value
  }

  /**
   * `after` is `before` with some cached values merged in: nothing is
   * removed, and every entry is either the old one or an encoding of the
   * cached value under that key.
   */
  ghost predicate PartiallyMerged<V>(before: SessionData, after: SessionData, m: map<string, V>, c: Codec<V>)
  {
    && before.Keys <= after.Keys
    && forall k :: k in after ==>
         (k in before && after[k] == before[k]) || (k in m && c.encode(m[k]) == Success(after[k]))
  }

  /**
   * The merge loop of mergeDecoded when it visits the keys of `m` in the
   * order `order` (Go leaves the order of a map range unspecified): each
   * value is encoded into the table, and the first encode error ends the
   * loop with the entries written so far left in place.
   */
  function MergeKeys<V>(data: SessionData, m: map<string, V>, order: seq<string>, c: Codec<V>): (r: (Option<Error>, SessionData))
    requires forall k :: k in order ==> k in m
    ensures r.0.None? <==> forall k :: k in order ==> c.encode(m[k]).Success?
    ensures r.0.Some? ==> exists k :: k in order && c.encode(m[k]) == Failure(r.0.value)
    ensures data.Keys <= r.1.Keys
    ensures forall k :: k in r.1 ==>
              (k in data && r.1[k] == data[k]) || (k in order && c.encode(m[k]) == Success(r.1[k]))
    ensures r.0.None? ==> forall k :: k in order ==> k in r.1 && c.encode(m[k]) == Success(r.1[k])
    decreases |order|
  {
    if order == [] then (None, data)
    else
      var k := order[|order| - 1];
      var (err, partial) := MergeKeys(data, m, order[..|order| - 1], c);
      if err.Some? then (err, partial)
      else
        match c.encode(m[k])
        case Success(row) => (None, partial[k := row])
        case Failure(e) => (Some(e), partial)
  }

  /**
   * Whatever order the merge loop visits all the cached keys in, it succeeds
   * exactly when every cached value encodes, and then the table afterwards is
   * the old table overwritten with the encoding of every cached value.
   */
  lemma MergeAllKeys<V>(data: SessionData, m: map<string, V>, order: seq<string>, c: Codec<V>)
    requires forall k :: k in order <==> k in m
    ensures MergeKeys(data, m, order, c).0.None? <==> AllEncodable(m, c)
    ensures MergeKeys(data, m, order, c).0.None? ==> MergeKeys(data, m, order, c).1 == data + Encoded(m, c)
  {
    var r := MergeKeys(data, m, order, c);
    if r.0.None? {
      assert r.1 == data + Encoded(m, c);
    }
  }

  /** A merge loop stopped by an encode error reports the error of some cached value and leaves the table partly merged. */
  lemma MergeStopped<V>(data: SessionData, m: map<string, V>, order: seq<string>, c: Codec<V>)
    requires forall k :: k in order ==> k in m
    requires MergeKeys(data, m, order, c).0.Some?
    ensures !AllEncodable(m, c)
    ensures exists k :: k in m && c.encode(m[k]) == Failure(MergeKeys(data, m, order, c).0.value)
    ensures PartiallyMerged(data, MergeKeys(data, m, order, c).1, m, c)
  {
  }

  /**
   * Get on a started store, as a function of the two tiers: the value Get
   * returns and the decoded cache afterwards. `dest` is the value the
   * caller's destination holds before the call (its zero value, usually).
   */
  function Fetch<V>(data: SessionData, decoded: map<string, V>, key: string, dest: V, c: Codec<V>): (r: (Result<V>, map<string, V>))
    // a cached key is served from the cache, and nothing changes
    ensures key in decoded ==> r == (Success(decoded[key]), decoded)
    // whatever Get returns successfully is cached under the key, and only there
    ensures r.0.Success? ==> r.1 == decoded[key := r.0.value]
    // the only failure is a raw entry that decodes with an error other than EOF; it caches nothing
    ensures r.0.Failure? <==> key !in decoded && key in data && c.decode(data[key]).Malformed?
    ensures r.0.Failure? ==> r.0.error == c.decode(data[key]).error && r.1 == decoded
    // a raw entry is decoded, and an entry that decodes to EOF leaves the destination as it was
    ensures key !in decoded && key in data && c.decode(data[key]).Value? ==> r.0 == Success(c.decode(data[key]).value)
    ensures key !in decoded && key in data && c.decode(data[key]).EOF? ==> r.0 == Success(dest)
    // a key stored nowhere yields the destination as it was
    ensures key !in decoded && key !in data ==> r.0 == Success(dest)
  {
    if key in decoded then (Success(decoded[key]), decoded)
    else
      var got := if key in data then DecodeOr(c.decode(data[key]), dest) else Success(dest);
      if got.Success? then (got, decoded[key := got.value]) else (got, decoded)
  }

  /** A value Put into a started store is what Get returns next, before any Save. */
  lemma PutThenGet<V>(data: SessionData, decoded: map<string, V>, key: string, value: V, dest: V, c: Codec<V>)
    ensures Fetch(data, decoded[key := value], key, dest, c) == (Success(value), decoded[key := value])
  {
  }

  /**
   * A successful Get is cached: a later Get of the same key returns the same
   * value, whatever the raw table or the destination then holds, and changes
   * nothing.
   */
  lemma GetIsCached<V>(data: SessionData, decoded: map<string, V>, key: string, dest: V,
                       laterData: SessionData, laterDest: V, c: Codec<V>)
    requires Fetch(data, decoded, key, dest, c).0.Success?
    ensures var (got, cache) := Fetch(data, decoded, key, dest, c);
            Fetch(laterData, cache, key, laterDest, c) == (got, cache)
  {
  }

  /**
   * What Save writes, a new Store loads back: the blob decodes to the merged
   * table, and Get of every key that was cached returns the cached value.
   */
  lemma SaveThenLoad<V(!new)>(data: SessionData, decoded: map<string, V>, dest: V, values: Codec<V>, tables: Codec<SessionData>)
    requires RoundTrips(values) && RoundTrips(tables)
    requires AllEncodable(decoded, values)
    requires tables.encode(data + Encoded(decoded, values)).Success?
    ensures var loaded := LoadTable(tables.encode(data + Encoded(decoded, values)).value, tables);
            && loaded == Success(data + Encoded(decoded, values))
            && forall k :: k in decoded ==> Fetch(loaded.value, map[], k, dest, values).0 == Success(decoded[k])
  {
    var merged := data + Encoded(decoded, values);
    LoadTableRoundTrip(tables, merged);
    forall k | k in decoded
      ensures Fetch(merged, map[], k, dest, values).0 == Success(decoded[k])
    {
      assert merged[k] == values.encode(decoded[k]).value;
    }
  }

  class Store<V> {
    const handler: Handler
    const id: string
    const values: Codec<V>
    const tables: Codec<SessionData>
    var raw: Bytes
    var data: SessionData
    var decoded: map<string, V>
    var started: bool

    /** NewStore: an unstarted store with empty tiers. */
    constructor (handler: Handler, id: string, values: Codec<V>, tables: Codec<SessionData>)
      ensures this.handler == handler && this.id == id
      ensures this.values == values && this.tables == tables
      ensures !started && raw == [] && data == map[] && decoded == map[]
    {
      this.handler := handler;
      this.id := id;
      this.values := values;
      this.tables := tables;
      raw := [];
      data := map[];
      decoded := map[];
      started := false;
    }

    method Start() returns (err: Option<Error>)
      modifies this, handler`calls
      ensures decoded == old(decoded)
      ensures handler.Fault(InitCall(id)).Some? ==>
        && err == handler.Fault(InitCall(id))
        && handler.calls == old(handler.calls) + [InitCall(id)]
        && raw == old(raw) && data == old(data) && started == old(started)
      ensures handler.Fault(InitCall(id)).None? ==>
        && handler.calls == old(handler.calls) + [InitCall(id), ReadCall(id)]
        && raw == handler.ReadBytes(id)
        && (Loaded(handler, id, tables).Success? ==> err.None? && data == Loaded(handler, id, tables).value && started)
        && (Loaded(handler, id, tables).Failure? ==> err == Some(Loaded(handler, id, tables).error) && data == old(data) && started == old(started))
    {
      err := handler.Init(id);
      if err.None? {
        err := LoadSession();
      }
    }

    method LoadSession() returns (err: Option<Error>)
      modifies this, handler`calls
      ensures handler.calls == old(handler.calls) + [ReadCall(id)]
      ensures raw == handler.ReadBytes(id)
      ensures decoded == old(decoded)
      ensures Loaded(handler, id, tables).Success? ==> err.None? && data == Loaded(handler, id, tables).value && started
      ensures Loaded(handler, id, tables).Failure? ==> err == Some(Loaded(handler, id, tables).error) && data == old(data) && started == old(started)
    {
      var readErr;
      raw, readErr := handler.Read(id);
      if readErr.Some? {
        return readErr;
      }
      var table := LoadTable(raw, tables);
      if table.Failure? {
        return Some(table.error);
      }
      data := table.value;
      started := true;
      err := None;
    }

    method Get(key: string, dest: V) returns (r: Result<V>)
      modifies this`decoded
      ensures !started ==> r == Failure(NotStarted) && decoded == old(decoded)
      ensures started ==> (r, decoded) == Fetch(data, old(decoded), key, dest, values)
    {
      if !started {
        return Failure(NotStarted);
      }
      var cached := GetDecoded(key);
      if cached.Some? {
        return Success(cached.value);
      }
      r := Success(dest);
      if key in data {
        r := DecodeOr(values.decode(data[key]), dest);
        if r.Failure? {
          return;
        }
      }
      var _ := SetDecoded(key, r.value);
    }

    method Put(key: string, value: V) returns (err: Option<Error>)
      modifies this`decoded
      ensures !started ==> err == Some(NotStarted) && decoded == old(decoded)
      ensures started ==> err.None? && decoded == old(decoded)[key := value]
    {
      err := SetDecoded(key, value);
    }

    method GetDecoded(key: string) returns (d: Option<V>)
      ensures d.Some? <==> key in decoded
      ensures d.Some? ==> d.value == decoded[key]
    {
      d := if key in decoded then Some(decoded[key]) else None;
    }

    method SetDecoded(key: string, value: V) returns (err: Option<Error>)
      modifies this`decoded
      ensures !started ==> err == Some(NotStarted) && decoded == old(decoded)
      ensures started ==> err.None? && decoded == old(decoded)[key := value]
    {
      if !started {
        return Some(NotStarted);
      }
      decoded := decoded[key := value];
      err := None;
    }

    method MergeDecoded() returns (err: Option<Error>)
      modifies this`data
      ensures err.None? <==> AllEncodable(decoded, values)
      ensures err.None? ==> data == old(data) + Encoded(decoded, values)
      ensures err.Some? ==> exists k :: k in decoded && values.encode(decoded[k]) == Failure(err.value)
      ensures err.Some? ==> PartiallyMerged(old(data), data, decoded, values)
    {
      ghost var visited: seq<string> := [];
      var todo := decoded.Keys;
      while todo != {}
        invariant todo <= decoded.Keys
        invariant forall k :: k in visited <==> k in decoded && k !in todo
        invariant (None, data) == MergeKeys(old(data), decoded, visited, values)
        decreases todo
      {
        var k :| k in todo;
        var row := values.encode(decoded[k]);
        ghost var before := visited;
        visited := visited + [k];
        assert visited[..|visited| - 1] == before;
        if row.Failure? {
          MergeStopped(old(data), decoded, visited, values);
          return Some(row.error);
        }
        data := data[k := row.value];
        todo := todo - {k};
      }
      MergeAllKeys(old(data), decoded, visited, values);
      err := None;
    }

    method Save() returns (err: Option<Error>)
      modifies this`data, handler`calls, handler`blobs
      ensures !AllEncodable(decoded, values) ==>
        && err.Some?
        && (exists k :: k in decoded && values.encode(decoded[k]) == Failure(err.value))
        && PartiallyMerged(old(data), data, decoded, values)
        && handler.calls == old(handler.calls) && handler.blobs == old(handler.blobs)
      ensures AllEncodable(decoded, values) ==> data == old(data) + Encoded(decoded, values)
      ensures AllEncodable(decoded, values) && tables.encode(data).Failure? ==>
        && err == Some(tables.encode(data).error)
        && handler.calls == old(handler.calls) && handler.blobs == old(handler.blobs)
      ensures AllEncodable(decoded, values) && tables.encode(data).Success? ==>
        var blob := tables.encode(data).value;
        && handler.calls == old(handler.calls) + [WriteCall(id, blob)]
        && err == handler.Fault(WriteCall(id, blob))
        && handler.blobs == if err.Some? then old(handler.blobs) else old(handler.blobs)[id := blob]
    {
      err := MergeDecoded();
      if err.Some? {
        return;
      }
      var row := tables.encode(data);
      if row.Failure? {
        return Some(row.error);
      }
      err := handler.Write(id, row.value);
    }
  }
}

/**
 * A client of the Store: a value Put and saved through one Store is what a
 * new Store for the same id, over the same Handler, gives back after Start.
 */
module StoreScenario {
  import opened Codec
  import opened Handlers
  import opened SessionStore

  /** A value Put into a store started on an empty Handler, then saved, leaves the encoded table in the Handler. */
  method PutAndSave<V>(id: string, key: string, value: V, values: Codec<V>, tables: Codec<SessionData>)
    returns (handler: Handler)
    requires tables.decode([]) == EOF
    requires values.encode(value).Success?
    requires tables.encode(map[key := values.encode(value).value]).Success?
    ensures fresh(handler) && handler.faults == map[]
    ensures id in handler.blobs
    ensures handler.blobs[id] == tables.encode(map[key := values.encode(value).value]).value
  {
    var table := map[key := values.encode(value).value];
    handler := new Handler(map[], map[]);
    var first := new Store(handler, id, values, tables);
    assert Loaded(handler, id, tables) == Success(map[]);
    var err := first.Start();
    assert first.started && first.data == map[];
    err := first.Put(key, value);
    assert first.decoded == map[key := value];
    assert AllEncodable(first.decoded, values) && Encoded(first.decoded, values) == table;
    assert handler.Fault(WriteCall(id, tables.encode(table).value)).None?;
    err := first.Save();
    assert first.data == table;
  }

  /** A new store over a Handler holding a saved table gives back, on Get, the value encoded under the key. */
  method Reopen<V(!new)>(handler: Handler, id: string, key: string, value: V, dest: V,
                         values: Codec<V>, tables: Codec<SessionData>) returns (got: Result<V>)
    requires RoundTrips(values) && RoundTrips(tables)
    requires values.encode(value).Success?
    requires tables.encode(map[key := values.encode(value).value]).Success?
    requires handler.faults == map[] && id in handler.blobs
    requires handler.blobs[id] == tables.encode(map[key := values.encode(value).value]).value
    modifies handler`calls
    ensures got == Success(value)
  {
    var table := map[key := values.encode(value).value];
    var second := new Store(handler, id, values, tables);
    assert Loaded(handler, id, tables) == Success(table) by {
      LoadTableRoundTrip(tables, table);
    }
    var err := second.Start();
    assert second.started && second.data == table && second.decoded == map[];
    got := second.Get(key, dest);
  }

  method PutSaveRestart<V(!new)>(id: string, key: string, value: V, dest: V,
                                 values: Codec<V>, tables: Codec<SessionData>) returns (got: Result<V>)
    requires RoundTrips(values) && RoundTrips(tables)
    requires tables.decode([]) == EOF
    requires values.encode(value).Success?
    requires tables.encode(map[key := values.encode(value).value]).Success?
    ensures got == Success(value)
  {
    var handler := PutAndSave(id, key, value, values, tables);
    got := Reopen(handler, id, key, value, dest, values, tables);
  }
}
