# Session store and session manager, modelled in Dafny

This project models the core of a Go package for session state: per-id
key/value bags that are decoded lazily, kept in memory, and persisted through
a pluggable backend (the Handler). It covers two stateful components.

- **Store** (store.go) is one session id with a two-tier cache. `data` is the
  raw table (key to encoded bytes) as last loaded or merged. `decoded` holds
  the values that Get already decoded or that Put wrote. `started` says
  whether Start has completed. Get decodes lazily and caches what it returns.
  Put writes only to the cache. Save encodes every cached value into `data`,
  encodes the whole table, and writes it through the Handler.
- **Manager** (manager.go) keeps sessions by id in three parallel maps:
  `sessions`, `rowSession` (each session's last raw table) and `started`.
  Start is idempotent and recovers a session's time stamp from the reserved
  `_ts` key. Get is a read-only lookup. Save prepares the session's table,
  encodes it and writes it. GC replaces every session older than
  `now - maxLifeTime` with a new one.

Files:

- `codec.dfy` (module `Codec`): bytes, the raw table `SessionData`, the
  errors, and the binary codec as a pair of total functions. Decoding has
  three outcomes: a value, `EOF`, or another error. `DecodeOr` is the
  source's `err != nil && err != io.EOF` test.
- `handler.dfy` (module `Handlers`): the Handler interface as an in-memory
  fake. Blobs live in a map, the calls that fail are configured in `faults`,
  and every call is appended to `calls`. Contracts use that trace to say
  which Handler operations ran, and in what order.
- `store.dfy` (module `SessionStore`): class `Store`, the specification
  functions `Fetch` (Get) and `MergeKeys` (the merge loop), and lemmas. Module
  `StoreScenario` is a client: Put, Save, then a new Store over the same
  Handler gives the value back.
- `manager.dfy` (module `SessionManager`): class `Manager` with the
  invariant `Valid()` (the three maps share one domain, the started ids),
  the specification functions for TS recovery and GC, and lemmas. Module
  `ManagerScenario` is a client: Start and Save, then a new Manager loads
  the saved row back.

Things the model takes as parameters:

- The clock (`time.Now()`) is an integer parameter `now`.
- Time is counted in nanoseconds since the Unix epoch. A lifetime is also a
  count of nanoseconds, as a Go `time.Duration` is. The `_ts` stamp is in
  seconds.
- The codec, `Session.prepareForSave` and `NewSession` are constant fields
  holding total functions, passed in when a Store or Manager is built.

## Where the code and the documented behaviour differ

The package's documented design says some things the code does not do.
The model follows the code in each case.

- The documented design calls Manager.Save for an id that has no session a
  no-op. The code has no early return, so it still encodes the missing row
  (a nil table) and writes it through `Handler.Write` (manager.go:40-65).
  `SessionManager.Manager.Save` states this.
- The documented design presents the Store as a single typed payload. The
  Store in store.go is a per-key bag with Get and Put by key, and that is what is
  modelled.
- `Handler.GC` is declared without a result (session.go:10), but
  manager.go:132 returns its result. The model takes it to return an error.
  The package also declares `ErrNotStarted` and `Store` twice; the model
  uses the store.go declarations.

## Model

| member | source | states |
|---|---|---|
| `Codec.DecodeOr` | store.go:100-105 | an unmarshal fails exactly on a decode error other than EOF, and returns that error; EOF leaves the destination as it was |
| `Codec.LoadTable` | store.go:75-81 | unmarshalling a blob into a new table gives the decoded table, the empty table on EOF, and fails only on another decode error, returning that error |
| `Codec.LoadTableRoundTrip` | store.go:77-81 | with a codec that round-trips, every table it encodes loads back unchanged |
| `Handlers.Handler.Init` | session.go:6 | Init is recorded in the call trace and fails exactly when configured to |
| `Handlers.Handler.Read` | session.go:7 | Read returns the stored blob (empty if none), or no bytes and the configured error |
| `Handlers.Handler.Write` | session.go:8 | Write stores the blob under the id unless it fails, and is recorded in the trace |
| `Handlers.Handler.GC` | session.go:10 | GC is recorded in the trace and returns the configured error |
| `Handlers.Loaded` | store.go:71-80 | loading a blob yields the Read error, else the decode error other than EOF, else the table |
| `SessionStore.Encoded` | store.go:59-65 | the table of encodings has exactly the cached keys, each holding the encoding of its cached value |
| `SessionStore.MergeKeys` | store.go:52-67 | for any visiting order, the merge succeeds iff every visited value encodes; a failure reports some visited value's encode error; old entries are never removed; every entry is the old one or a fresh encoding; on success every visited key holds its encoding |
| `SessionStore.MergeAllKeys` | store.go:59-66 | whatever order the keys are visited in, the merge succeeds iff every cached value encodes, and the table is then the old one overwritten with all encodings |
| `SessionStore.MergeStopped` | store.go:60-63 | a merge stopped by an encode error reports the error of some cached value and leaves the table partly merged |
| `SessionStore.Fetch` | store.go:91-108 | a cached key is served from the cache, unchanged; a success is cached under the key; the only error is a raw entry failing to decode with an error other than EOF, and it caches nothing; EOF and a key stored nowhere yield the destination's value |
| `SessionStore.PutThenGet` | store.go:111-113 | after Put(k, v) on a started store, Get(k) returns v before any Save |
| `SessionStore.GetIsCached` | store.go:91-95 | after a successful Get, a later Get of that key returns the same value whatever the raw table then holds, and changes nothing |
| `SessionStore.SaveThenLoad` | store.go:40-50 | with round-tripping codecs, the blob Save writes loads back as the merged table, and Get of every cached key on it returns the cached value |
| `SessionStore.Store.constructor` | store.go:139-144 | NewStore yields an unstarted store with empty raw bytes, table and cache |
| `SessionStore.Store.Start` | store.go:30-38 | an Init error is returned with no Read and nothing changed; otherwise Init then Read run, and the load outcome decides the error, the table and the started flag; the cache is untouched |
| `SessionStore.Store.LoadSession` | store.go:69-84 | raw takes Read's bytes even on error; a Read or decode error is returned with table and started flag unchanged; otherwise the table is the decoded blob (empty on EOF) and the store is started |
| `SessionStore.Store.Get` | store.go:86-109 | on an unstarted store, ErrNotStarted with nothing changed; otherwise the result and new cache are Fetch's; the raw table is never modified |
| `SessionStore.Store.Put` | store.go:111-113 | on an unstarted store, ErrNotStarted with the cache unchanged; otherwise the cache maps the key to the value; the raw table is never modified |
| `SessionStore.Store.GetDecoded` | store.go:115-124 | finds a key exactly when the cache holds it, with the cached value |
| `SessionStore.Store.SetDecoded` | store.go:126-137 | ErrNotStarted with nothing changed before Start, otherwise the cache updated at the key only |
| `SessionStore.Store.MergeDecoded` | store.go:52-67 | succeeds iff every cached value encodes, and then the table is the old one overwritten with all encodings (domain = old keys + cached keys); on failure the error is some value's encode error and the table is partly merged |
| `SessionStore.Store.Save` | store.go:40-50 | a merge or table-encode failure is returned with no Handler call; otherwise Encode(table) is written under the store's id and Write's error returned; started is not checked |
| `StoreScenario.PutAndSave` | store.go:40-50 | a value Put into a store started on an empty Handler and saved leaves the encoded table in the Handler |
| `StoreScenario.Reopen` | store.go:69-109 | a new store over a Handler holding that table gets the value back from Get |
| `StoreScenario.PutSaveRestart` | store.go:30-50 | Put, Save, new Store, Start, Get returns the value that was Put |
| `SessionManager.RecoveredTS` | manager.go:91-95 | a loaded session's TS is `now` unless `_ts` decodes to a positive number of seconds, which then sets it; an absent, undecodable, zero or negative stamp keeps `now` |
| `SessionManager.StampRecovered` | manager.go:91-95 | a positive stamp the codec wrote under `_ts` is the TS a reload recovers, whatever the clock |
| `SessionManager.ExpiredGrows` | manager.go:126 | a later cutoff expires at least the same sessions |
| `SessionManager.CollectSettles` | manager.go:125-130 | when new sessions are not older than the cutoff, a GC pass leaves nothing expired, so a second pass changes nothing |
| `SessionManager.CollectKeepsDomain` | manager.go:125-130 | GC keeps the session and row tables on their common domain |
| `SessionManager.VisitOneMore` | manager.go:125-130 | each id GC's loop visits renews its session and clears its row exactly when it is expired |
| `SessionManager.Manager.constructor` | manager.go:135-143 | NewManager starts with three empty tables and the invariant |
| `SessionManager.Manager.Start` | manager.go:24-38 | a started id returns success with no Handler call and no change; otherwise an Init error returns before any Read and with no change, and after Init and Read the load outcome is installed as loadSession states; the invariant is kept |
| `SessionManager.Manager.LoadSession` | manager.go:67-100 | a Read or non-EOF decode error is returned with all three tables unchanged; otherwise started[id] is true, rowSession[id] is the decoded blob (empty on EOF), and sessions[id] is a session over it with an empty cache and the recovered TS |
| `SessionManager.Manager.Get` | manager.go:102-119 | changes nothing; returns the stored session exactly when the id is started and has one, otherwise a session carrying only the id |
| `SessionManager.Manager.Save` | manager.go:40-50 | a prepareForSave error returns before any write with nothing changed; otherwise rowSession[id] is updated only if the id has a session, and Encode(row) is written under the id (an encode error returns with no write), even for an id with no session |
| `SessionManager.Manager.PrepareSessions` | manager.go:52-65 | only an id with a session has its row replaced by the prepared table; a prepare error changes nothing |
| `SessionManager.Manager.GC` | manager.go:121-133 | exactly the sessions older than now - maxLifeTime get a new session and an empty row; all other entries and the started map are unchanged; then Handler.GC runs and its error is returned |
| `ManagerScenario.StartAndSave` | manager.go:40-100 | a session started on an empty Handler and saved leaves its prepared row's encoding in the Handler |
| `ManagerScenario.Restart` | manager.go:67-100 | a new Manager over that Handler loads the row back, with the TS recovered from it |
| `ManagerScenario.SaveRestart` | manager.go:24-119 | Start, Save, new Manager, Start, Get gives a session over the prepared row |

## Left out

- Locking: every `sync.RWMutex` lock and unlock is dropped, and the model is sequential. The concurrency behaviour is not captured.
- MessagePack: Marshal and Unmarshal are the abstract `Codec`. Byte-level encoding is not modelled.
- Go's nil maps are modelled as empty maps, so the lazy allocation in `mergeDecoded` and `setDecoded` has no visible effect. `Manager.Save` of an id with no row encodes the empty table, although MessagePack writes a nil map differently from an empty one.
- SessionStore.Store.Get: the reflection copy into `dest` and the caching of the caller's `dest` pointer are not modelled. Get takes the destination's value and returns a value, and the cache stores values. Aliasing through that pointer is not captured, nor is a partial unmarshal into a non-zero destination.
- SessionManager.Manager.Get: sessions are values, so the model does not capture that callers share the stored `*Session` and can change it through that pointer.
- `Session.prepareForSave`, `Session.Get`, `Session.Set` and `NewSession` are not part of this model; their bodies are not in the modelled files. prepareForSave is an abstract function that may fail, and its effect on the session itself (refreshing TS, caching `_ts`) is not modelled. NewSession is an abstract function of the id.
- SessionManager.Manager.LoadSession: `session.Get("_ts", &ts)` is modelled as a lookup and decode of `_ts` in the loaded table, with its error ignored. Whether it also caches `_ts` in the session's decoded map is not modelled, so the installed session's cache is empty.
- SessionManager.Manager.GC reads the clock once (`now`). The source calls `time.Now()` again for every session it visits.
- SessionManager.Manager.PrepareSessions: loadSession puts one Go map into both the session's `rowData` and `rowSession[id]` (manager.go:89, manager.go:97). The model keeps two independent values, so it does not capture a prepareForSave that writes into its rowData in place, which also changes `rowSession[id]`. The clauses saying a prepare error changes nothing (here and in SessionManager.Manager.Save) hold only for a prepareForSave that does not do that.
- SessionStore.Store.LoadSession: the fake Handler's Read returns no bytes whenever it fails. A backend that returns bytes together with an error is not modelled, so "raw takes Read's bytes even on error" only ever covers `raw` being set to the empty blob.
- Integer widths are not modelled: the `_ts` stamp (int64), `time.Duration` and time instants are unbounded integers.
- The Handler is a fake whose configured failures are fixed per call: the same call always fails the same way. `Handler.Destroy` is not used by the core and is not modelled. The fake's GC does not expire blobs, because backend expiry is the backend's concern.
- handlers/file.go (file-system backend), handlers/cache.go (cache backend) and manager_test.go (concurrency stress tests) are not part of this model.
