/**
 * The Manager of manager.go: a table of sessions keyed by id, kept in three
 * parallel maps (the sessions, their last known raw tables, and the started
 * flags), with Start, Save, Get and GC against a Handler.
 *
 * Time is an integer count of nanoseconds since the Unix epoch: `now` is
 * passed in wherever the source reads the clock, and a lifetime is a count
 * of nanoseconds, as a Go time.Duration is.
 */
module SessionManager {
  import opened Codec
  import opened Handlers

  const NanosPerSecond := 1_000_000_000

  /** Go's zero time.Time (January 1 of year 1, UTC), in nanoseconds since the epoch. */
  const ZeroTime := -62_135_596_800 * NanosPerSecond

  /** The reserved raw-table key under which a session persists its last-touch time, in seconds. */
  const TimestampKey := "_ts"

  /** The state of one session, from the literal that loadSession builds. */
  datatype Session<V> = Session(id: string, ts: int, rowData: SessionData, decoded: map<string, V>)

  /** The `Session{ID: id}` that Get hands out on a miss: nothing but the id. */
  function Blank<V>(id: string): Session<V>
  {
    Session(id, ZeroTime, map[], map[])
  }

  /** A missing row reads as Go's nil table, modelled as the empty one. */
  function RowOf(rows: map<string, SessionData>, id: string): SessionData
  {
    if id in rows then rows[id] else map[]
  }

  /**
   * The TS of a freshly loaded session: `now`, unless the loaded table holds
   * under `_ts` a positive number of seconds, which then wins. A `_ts` entry
   * that does not decode leaves the stamp at 0, so `now` is kept.
   */
  function RecoveredTS(data: SessionData, stamps: Codec<int>, now: int): (ts: int)
    ensures ts == now || ts >= NanosPerSecond
    ensures ts != now ==> TimestampKey in data && stamps.decode(data[TimestampKey]).Value? && stamps.decode(data[TimestampKey]).value > 0
    ensures TimestampKey !in data ==> ts == now
    ensures TimestampKey in data && stamps.decode(data[TimestampKey]).Value? && stamps.decode(data[TimestampKey]).value > 0 ==>
              ts == stamps.decode(data[TimestampKey]).value * NanosPerSecond
  {
    var stamp := if TimestampKey in data then DecodeOr(stamps.decode(data[TimestampKey]), 0) else Success(0);
    var secs := if stamp.Success? then stamp.value else 0;
    if secs > 0 then secs * NanosPerSecond else now
  }

  /** The ids whose session was last touched before `cutoff`. */
  function Expired<V>(sessions: map<string, Session<V>>, cutoff: int): set<string>
  {
    set id | id in sessions && sessions[id].ts < cutoff
  }

  /** The session table with every id of `ids` given a new session; all other entries kept. */
  function Renew<V>(sessions: map<string, Session<V>>, ids: set<string>, create: string -> Session<V>): map<string, Session<V>>
  {
    map id | id in sessions :: if id in ids then create(id) else sessions[id]
  }

  /** The row table with an empty row for every id of `ids`; all other entries kept. */
  function Clear(rows: map<string, SessionData>, ids: set<string>): map<string, SessionData>
  {
    map id | id in rows.Keys + ids :: if id in ids then map[] else rows[id]
  }

  /**
   * One more id visited by GC's loop: if it is expired, its session is
   * renewed and its row cleared; otherwise both tables stay as they were.
   */
  lemma VisitOneMore<V>(sessions: map<string, Session<V>>, rows: map<string, SessionData>, expired: set<string>,
                        done: set<string>, id: string, create: string -> Session<V>)
    requires id in sessions
    ensures id in expired ==>
              && Renew(sessions, expired * (done + {id}), create) == Renew(sessions, expired * done, create)[id := create(id)]
              && Clear(rows, expired * (done + {id})) == Clear(rows, expired * done)[id := map[]]
    ensures id !in expired ==>
              && Renew(sessions, expired * (done + {id}), create) == Renew(sessions, expired * done, create)
              && Clear(rows, expired * (done + {id})) == Clear(rows, expired * done)
  {
    if id in expired {
      assert expired * (done + {id}) == expired * done + {id};
    } else {
      assert expired * (done + {id}) == expired * done;
    }
  }

  /** GC keeps the session and row tables on one domain. */
  lemma CollectKeepsDomain<V>(sessions: map<string, Session<V>>, rows: map<string, SessionData>, cutoff: int,
                              create: string -> Session<V>)
    requires sessions.Keys == rows.Keys
    ensures Renew(sessions, Expired(sessions, cutoff), create).Keys == sessions.Keys
    ensures Clear(rows, Expired(sessions, cutoff)).Keys == rows.Keys
  {
  }

  /** A positive stamp the codec wrote under `_ts` is the TS a reload recovers, whatever the clock says. */
  lemma StampRecovered(data: SessionData, stamps: Codec<int>, secs: int, now: int)
    requires RoundTrips(stamps)
    requires secs > 0 && stamps.encode(secs).Success?
    requires TimestampKey in data && data[TimestampKey] == stamps.encode(secs).value
    ensures RecoveredTS(data, stamps, now) == secs * NanosPerSecond
  {
  }

  /** A later cutoff (a shorter lifetime, or a later clock) expires at least the same sessions. */
  lemma ExpiredGrows<V>(sessions: map<string, Session<V>>, cutoff: int, laterCutoff: int)
    requires cutoff <= laterCutoff
    ensures Expired(sessions, cutoff) <= Expired(sessions, laterCutoff)
  {
  }

  /**
   * When new sessions are never older than the cutoff, a GC pass leaves no
   * expired session behind, so a second pass at the same cutoff changes
   * nothing.
   */
  lemma CollectSettles<V>(sessions: map<string, Session<V>>, rows: map<string, SessionData>, cutoff: int,
                          create: string -> Session<V>)
    requires forall id :: create(id).ts >= cutoff
    ensures var renewed := Renew(sessions, Expired(sessions, cutoff), create);
            && Expired(renewed, cutoff) == {}
            && Renew(renewed, {}, create) == renewed
            && Clear(Clear(rows, Expired(sessions, cutoff)), {}) == Clear(rows, Expired(sessions, cutoff))
  {
    var renewed := Renew(sessions, Expired(sessions, cutoff), create);
    forall id | id in renewed
      ensures renewed[id].ts >= cutoff
    {
      if id in Expired(sessions, cutoff) {
        assert renewed[id] == create(id);
      }
    }
  }

  class Manager<V> {
    const handler: Handler
    const tables: Codec<SessionData>
    const stamps: Codec<int>
    /** Session.prepareForSave, whose body is not part of this model: it may fail. */
    const prepare: Session<V> -> Result<SessionData>
    /** NewSession, whose body is not part of this model. */
    const newSession: string -> Session<V>
    var sessions: map<string, Session<V>>
    var rowSession: map<string, SessionData>
    var started: map<string, bool>

    /** The three tables share one domain: the ids that are started. */
    ghost predicate Valid()
      reads this
    {
      && sessions.Keys == rowSession.Keys == started.Keys
      && forall id :: id in started ==> started[id]
    }

    /** `s.started[id]`, false for an id the map does not hold. */
    function IsStarted(id: string): bool
      reads this
    {
      id in started && started[id]
    }

    /** NewManager: three empty tables. */
    constructor (handler: Handler, tables: Codec<SessionData>, stamps: Codec<int>,
                 prepare: Session<V> -> Result<SessionData>, newSession: string -> Session<V>)
      ensures Valid()
      ensures this.handler == handler && this.tables == tables && this.stamps == stamps
      ensures this.prepare == prepare && this.newSession == newSession
      ensures sessions == map[] && rowSession == map[] && started == map[]
    {
      this.handler := handler;
      this.tables := tables;
      this.stamps := stamps;
      this.prepare := prepare;
      this.newSession := newSession;
      sessions := map[];
      rowSession := map[];
      started := map[];
    }

    method Start(id: string, now: int) returns (err: Option<Error>)
      requires Valid()
      modifies this, handler`calls
      ensures Valid()
      // idempotent: a started id touches neither the Handler nor the tables
      ensures old(IsStarted(id)) ==>
        && err.None? && handler.calls == old(handler.calls)
        && sessions == old(sessions) && rowSession == old(rowSession) && started == old(started)
      // an Init error is returned before any Read
      ensures !old(IsStarted(id)) && handler.Fault(InitCall(id)).Some? ==>
        && err == handler.Fault(InitCall(id))
        && handler.calls == old(handler.calls) + [InitCall(id)]
        && sessions == old(sessions) && rowSession == old(rowSession) && started == old(started)
      ensures !old(IsStarted(id)) && handler.Fault(InitCall(id)).None? ==>
        && handler.calls == old(handler.calls) + [InitCall(id), ReadCall(id)]
        && Installed(id, now, old(sessions), old(rowSession), old(started), err)
    {
      if IsStarted(id) {
        return None;
      }
      err := handler.Init(id);
      if err.None? {
        err := LoadSession(id, now);
      }
    }

    /**
     * The outcome of loadSession(id) on tables `s0`, `r0`, `st0`: on a Read or
     * decode error that error and no change; otherwise a session over the
     * loaded table, with no decoded values and a recovered TS, installed in
     * all three tables.
     */
    ghost predicate Installed(id: string, now: int, s0: map<string, Session<V>>, r0: map<string, SessionData>,
                              st0: map<string, bool>, err: Option<Error>)
      reads this, handler
    {
      var loaded := Loaded(handler, id, tables);
      && (loaded.Failure? ==>
            err == Some(loaded.error) && sessions == s0 && rowSession == r0 && started == st0)
      && (loaded.Success? ==>
            var data := loaded.value;
            && err.None?
            && sessions == s0[id := Session(id, RecoveredTS(data, stamps, now), data, map[])]
            && rowSession == r0[id := data]
            && started == st0[id := true])
    }

    method LoadSession(id: string, now: int) returns (err: Option<Error>)
      requires Valid()
      modifies this, handler`calls
      ensures Valid()
      ensures handler.calls == old(handler.calls) + [ReadCall(id)]
      ensures Installed(id, now, old(sessions), old(rowSession), old(started), err)
    {
      var raw, readErr := handler.Read(id);
      if readErr.Some? {
        return readErr;
      }
      var data := LoadTable(raw, tables);
      if data.Failure? {
        return Some(data.error);
      }
      var session := Session(id, RecoveredTS(data.value, stamps, now), data.value, map[]);
      sessions := sessions[id := session];
      rowSession := rowSession[id := data.value];
      started := started[id := true];
      err := None;
    }

    /** A lookup that changes nothing. */
    method Get(id: string) returns (s: Session<V>)
      ensures IsStarted(id) && id in sessions ==> s == sessions[id]
      ensures !(IsStarted(id) && id in sessions) ==> s == Blank(id)
      ensures Valid() && id in sessions ==> s == sessions[id]
    {
      s := Blank(id);
      if !IsStarted(id) {
        return;
      }
      if id in sessions {
        s := sessions[id];
      }
    }

    method Save(id: string) returns (err: Option<Error>)
      requires Valid()
      modifies this`rowSession, handler`calls, handler`blobs
      ensures Valid()
      // a prepareForSave error is returned before any write
      ensures id in sessions && prepare(sessions[id]).Failure? ==>
        && err == Some(prepare(sessions[id]).error)
        && rowSession == old(rowSession)
        && handler.calls == old(handler.calls) && handler.blobs == old(handler.blobs)
      ensures !(id in sessions && prepare(sessions[id]).Failure?) ==>
        && rowSession == (if id in sessions then old(rowSession)[id := prepare(sessions[id]).value] else old(rowSession))
        && Written(id, old(handler.calls), old(handler.blobs), err)
    {
      err := PrepareSessions(id);
      if err.Some? {
        return;
      }
      var row := tables.encode(RowOf(rowSession, id));
      if row.Failure? {
        return Some(row.error);
      }
      err := handler.Write(id, row.value);
    }

    /**
     * The tail of Save for `id`: the row is encoded, an encode error is
     * returned with no write, and otherwise the blob goes to Handler.Write,
     * whose error is returned.
     */
    ghost predicate Written(id: string, calls0: seq<Call>, blobs0: map<string, Bytes>, err: Option<Error>)
      reads this, handler
    {
      var row := tables.encode(RowOf(rowSession, id));
      && (row.Failure? ==>
            err == Some(row.error) && handler.calls == calls0 && handler.blobs == blobs0)
      && (row.Success? ==>
            && handler.calls == calls0 + [WriteCall(id, row.value)]
            && err == handler.Fault(WriteCall(id, row.value))
            && handler.blobs == if err.Some? then blobs0 else blobs0[id := row.value])
    }

    method PrepareSessions(id: string) returns (err: Option<Error>)
      requires Valid()
      modifies this`rowSession
      ensures Valid()
      ensures id !in sessions ==> err.None? && rowSession == old(rowSession)
      ensures id in sessions && prepare(sessions[id]).Failure? ==>
        err == Some(prepare(sessions[id]).error) && rowSession == old(rowSession)
      ensures id in sessions && prepare(sessions[id]).Success? ==>
        err.None? && rowSession == old(rowSession)[id := prepare(sessions[id]).value]
    {
      if id in sessions {
        var rs := prepare(sessions[id]);
        if rs.Failure? {
          return Some(rs.error);
        }
        rowSession := rowSession[id := rs.value];
      }
      err := None;
    }

    method GC(maxLifeTime: int, now: int) returns (err: Option<Error>)
      requires Valid()
      modifies this`sessions, this`rowSession, handler`calls
      ensures Valid()
      ensures sessions == Renew(old(sessions), Expired(old(sessions), now - maxLifeTime), newSession)
      ensures rowSession == Clear(old(rowSession), Expired(old(sessions), now - maxLifeTime))
      ensures handler.calls == old(handler.calls) + [GCCall(maxLifeTime)]
      ensures err == handler.Fault(GCCall(maxLifeTime))
    {
      ghost var expired := Expired(sessions, now - maxLifeTime);
      ghost var done: set<string> := {};
      var todo := sessions.Keys;
      while todo != {}
        invariant todo <= old(sessions).Keys
        invariant done == old(sessions).Keys - todo
        invariant sessions == Renew(old(sessions), expired * done, newSession)
        invariant rowSession == Clear(old(rowSession), expired * done)
        invariant handler.calls == old(handler.calls)
        decreases todo
      {
        var id :| id in todo;
        VisitOneMore(old(sessions), old(rowSession), expired, done, id, newSession);
        if sessions[id].ts < now - maxLifeTime {
          sessions := sessions[id := newSession(id)];
          rowSession := rowSession[id := map[]];
        }
        todo := todo - {id};
        done := done + {id};
      }
      assert expired * done == expired;
      CollectKeepsDomain(old(sessions), old(rowSession), now - maxLifeTime, newSession);
      assert sessions.Keys == old(sessions).Keys && rowSession.Keys == old(rowSession).Keys;
      err := handler.GC(maxLifeTime);
    }
  }
}

/**
 * A client of the Manager: a session started and saved through one Manager
 * is what a new Manager over the same Handler loads when it starts the same
 * id, with the row that prepareForSave produced.
 */
module ManagerScenario {
  import opened Codec
  import opened Handlers
  import opened SessionManager

  /** A session started on an empty store and saved leaves the encoding of its prepared row in the Handler. */
  method StartAndSave<V>(id: string, now: int, tables: Codec<SessionData>, stamps: Codec<int>,
                         prepare: Session<V> -> Result<SessionData>, newSession: string -> Session<V>)
    returns (handler: Handler)
    requires tables.decode([]) == EOF
    requires prepare(Session(id, now, map[], map[])).Success?
    requires tables.encode(prepare(Session(id, now, map[], map[])).value).Success?
    ensures fresh(handler) && handler.faults == map[]
    ensures id in handler.blobs
    ensures handler.blobs[id] == tables.encode(prepare(Session(id, now, map[], map[])).value).value
  {
    handler := new Handler(map[], map[]);
    var first := new Manager(handler, tables, stamps, prepare, newSession);
    assert !first.IsStarted(id) && handler.Fault(InitCall(id)).None?;
    assert Loaded(handler, id, tables) == Success(map[]);
    var err := first.Start(id, now);
    assert first.sessions[id] == Session(id, now, map[], map[]);
    err := first.Save(id);
  }

  /** A new Manager over a Handler holding a saved row loads that row back, with its recovered TS. */
  method Restart<V>(handler: Handler, id: string, later: int, row: SessionData, tables: Codec<SessionData>,
                    stamps: Codec<int>, prepare: Session<V> -> Result<SessionData>, newSession: string -> Session<V>)
    returns (reloaded: Session<V>)
    requires RoundTrips(tables) && tables.encode(row).Success?
    requires handler.faults == map[] && id in handler.blobs && handler.blobs[id] == tables.encode(row).value
    modifies handler`calls
    ensures reloaded == Session(id, RecoveredTS(row, stamps, later), row, map[])
  {
    var second := new Manager(handler, tables, stamps, prepare, newSession);
    assert !second.IsStarted(id) && handler.Fault(InitCall(id)).None?;
    assert Loaded(handler, id, tables) == Success(row) by {
      LoadTableRoundTrip(tables, row);
    }
    var err := second.Start(id, later);
    assert second.IsStarted(id) && second.sessions[id] == Session(id, RecoveredTS(row, stamps, later), row, map[]);
    reloaded := second.Get(id);
  }

  method SaveRestart<V>(id: string, now: int, later: int, tables: Codec<SessionData>, stamps: Codec<int>,
                        prepare: Session<V> -> Result<SessionData>, newSession: string -> Session<V>)
    returns (reloaded: Session<V>)
    requires RoundTrips(tables) && tables.decode([]) == EOF
    requires prepare(Session(id, now, map[], map[])).Success?
    requires tables.encode(prepare(Session(id, now, map[], map[])).value).Success?
    ensures var row := prepare(Session(id, now, map[], map[])).value;
            reloaded == Session(id, RecoveredTS(row, stamps, later), row, map[])
  {
    var handler := StartAndSave(id, now, tables, stamps, prepare, newSession);
    reloaded := Restart(handler, id, later, prepare(Session(id, now, map[], map[])).value, tables, stamps, prepare, newSession);
  }
}
