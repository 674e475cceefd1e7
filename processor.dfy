/** internal/processor/processor.go: one MQTT message's journey through
    decode, device-id check, dedup, database insert and publish. Each stage
    runs only when every earlier one succeeded. The cache, the database and
    the publisher are collaborator objects; JSON decoding and `uuid.Parse` are
    given functions. */
module Processor {
  import opened Base
  import Dedup

  // ---------------------------------------------------------------------
  // Values
  // ---------------------------------------------------------------------

  /** A float64 carried through unchanged, by its IEEE-754 bit pattern. */
  datatype Float64 = Float64(bits: bv64)

  /** A Go `time.Time`: the whole seconds since the Unix epoch and the
      nanoseconds within that second. */
  datatype Time = Time(unixSeconds: int, nanos: nat)

  /** `t.Unix()`: the instant truncated to whole seconds. */
  function Unix(t: Time): int
  {
    t.unixSeconds
  }

  /** A parsed `uuid.UUID`. */
  datatype Uuid = Uuid(bytes: seq<bv8>)

  /** `TelemetryPayload`, lines 24-29. */
  datatype TelemetryPayload = TelemetryPayload(deviceId: string, timestamp: Time, temperature: Float64, humidity: Float64)

  /** The pgtype wrappers: a value and whether it is non-NULL. */
  datatype PgUuid = PgUuid(bytes: Uuid, valid: bool)
  datatype PgTimestamptz = PgTimestamptz(time: Time, valid: bool)
  datatype PgFloat8 = PgFloat8(float64: Float64, valid: bool)

  /** `db.InsertSensorDataParams`: one row of sensor data. */
  datatype InsertSensorDataParams = InsertSensorDataParams(
    deviceId: PgUuid, timestamp: PgTimestamptz, temperature: PgFloat8, humidity: PgFloat8)

  /** `toPgUUID`, lines 74-80. */
  function ToPgUuid(u: Uuid): PgUuid
  {
    PgUuid(u, true)
  }

  /** `toPgTimestamp`, lines 82-88. */
  function ToPgTimestamp(t: Time): PgTimestamptz
  {
    PgTimestamptz(t, true)
  }

  /** `toPgFloat64`, lines 90-96. */
  function ToPgFloat64(f: Float64): PgFloat8
  {
    PgFloat8(f, true)
  }

  /** The SQL value each wrapper stands for: NULL unless it is marked valid. */
  function UuidValue(p: PgUuid): Option<Uuid> { if p.valid then Some(p.bytes) else None }
  function TimeValue(p: PgTimestamptz): Option<Time> { if p.valid then Some(p.time) else None }
  function FloatValue(p: PgFloat8): Option<Float64> { if p.valid then Some(p.float64) else None }

  /** The row lines 55-60 insert for a payload whose device id parsed to `id`. */
  function RowFor(id: Uuid, data: TelemetryPayload): InsertSensorDataParams
  {
    InsertSensorDataParams(ToPgUuid(id), ToPgTimestamp(data.timestamp),
                           ToPgFloat64(data.temperature), ToPgFloat64(data.humidity))
  }

  /** The wrappers never produce NULL and lose nothing: the row stores the
      parsed UUID, the timestamp, the temperature and the humidity as they are. */
  lemma RowKeepsReading(id: Uuid, data: TelemetryPayload)
    ensures var row := RowFor(id, data);
      UuidValue(row.deviceId) == Some(id) &&
      TimeValue(row.timestamp) == Some(data.timestamp) &&
      FloatValue(row.temperature) == Some(data.temperature) &&
      FloatValue(row.humidity) == Some(data.humidity)
  {
  }

  // ---------------------------------------------------------------------
  // Collaborators
  // ---------------------------------------------------------------------

  /** The two library calls Handle relies on: `json.Unmarshal` into a
      TelemetryPayload and `uuid.Parse`. */
  datatype Codec = Codec(decode: seq<bv8> -> Result<TelemetryPayload>, parseUuid: string -> Result<Uuid>)

  /** `db.Queries`: the database behind `InsertSensorData`. Each insert
      succeeds or fails as a whole. */
  class Database {
    /** The rows stored, oldest first. */
    var rows: seq<InsertSensorDataParams>
    /** How many inserts have been attempted. */
    var calls: nat
    /** The error the n-th insert fails with, if any. */
    const fault: nat -> Option<Error>

    constructor (fault: nat -> Option<Error>)
      ensures rows == [] && calls == 0
      ensures forall n :: this.fault(n) == fault(n)
    {
      rows := [];
      calls := 0;
      this.fault := fault;
    }

    method InsertSensorData(row: InsertSensorDataParams) returns (err: Option<Error>)
      modifies this
      ensures calls == old(calls) + 1 && err == fault(old(calls))
      ensures rows == if err.None? then old(rows) + [row] else old(rows)
    {
      err := fault(calls);
      calls := calls + 1;
      if err.None? {
        rows := rows + [row];
      }
    }
  }

  /** The publish step: hands a reading to the fanout exchange and reports
      an error or success. */
  class Publisher {
    /** Every reading handed over, in order. */
    var sent: seq<TelemetryPayload>
    /** The error the n-th publish fails with, if any. */
    const fault: nat -> Option<Error>

    constructor (fault: nat -> Option<Error>)
      ensures sent == []
      ensures forall n :: this.fault(n) == fault(n)
    {
      sent := [];
      this.fault := fault;
    }

    method Publish(data: TelemetryPayload) returns (err: Option<Error>)
      modifies this
      ensures sent == old(sent) + [data] && err == fault(|old(sent)|)
    {
      err := fault(|sent|);
      sent := sent + [data];
    }
  }

  // ---------------------------------------------------------------------
  // The pipeline
  // ---------------------------------------------------------------------

  /** Which of Handle's exits a run took. */
  datatype Outcome =
    | ParseFailed(err: Error)    // lines 34-37
    | InvalidUuid(err: Error)    // lines 39-43
    | RedisError(err: Error)     // lines 46-49
    | DuplicateSkipped           // lines 50-53
    | InsertFailed(err: Error)   // lines 61-64
    | PublishFailed(err: Error)  // lines 66-69
    | Processed                  // line 71
  {
    /** The run got past the dedup gate, so it attempted an insert. */
    predicate Claimed() { InsertFailed? || PublishFailed? || Processed? }
    /** The run stored a row, so it attempted a publish. */
    predicate Stored() { PublishFailed? || Processed? }
  }

  /** The state of the collaborators that a run can change. */
  datatype World = World(
    cache: map<string, int>, cacheCommands: nat,
    rows: seq<InsertSensorDataParams>, inserts: nat,
    sent: seq<TelemetryPayload>)

  /** The collaborators' failures, by call number. */
  datatype Faults = Faults(cache: nat -> Option<Error>, insert: nat -> Option<Error>, publish: nat -> Option<Error>)

  datatype Run = Run(world: World, outcome: Outcome)

  /** The dedup key of a decoded payload: its device id as received and its
      timestamp in whole seconds. */
  function DedupKey(data: TelemetryPayload): string
  {
    Dedup.Key(data.deviceId, Unix(data.timestamp))
  }

  /** What `Handle(raw)` does at cache instant `now`, starting from `w`. */
  function Pipeline(codec: Codec, f: Faults, w: World, raw: seq<bv8>, now: int): (r: Run)
    // A message that fails to decode or carries an invalid device id touches nothing.
    ensures r.outcome.ParseFailed? <==> codec.decode(raw).Err?
    ensures r.outcome.InvalidUuid? <==>
      codec.decode(raw).Ok? && codec.parseUuid(codec.decode(raw).value.deviceId).Err?
    ensures r.outcome.ParseFailed? || r.outcome.InvalidUuid? ==> r.world == w
    // Every later stage sends exactly one SETNX, for the payload's key.
    ensures !(r.outcome.ParseFailed? || r.outcome.InvalidUuid?) ==>
      var data := codec.decode(raw).value;
      r.world.cacheCommands == w.cacheCommands + 1 &&
      r.world.cache - {DedupKey(data)} == w.cache - {DedupKey(data)}
    // A dedup error is checked before the duplicate flag.
    ensures r.outcome.RedisError? <==> r.world.cacheCommands > w.cacheCommands && f.cache(w.cacheCommands).Some?
    // With the cache reachable, a valid reading is skipped exactly when its key
    // is live at `now`; otherwise its key is claimed for 60 s and the run goes on.
    ensures codec.decode(raw).Ok? && codec.parseUuid(codec.decode(raw).value.deviceId).Ok? &&
            f.cache(w.cacheCommands).None? ==>
      (r.outcome.DuplicateSkipped? <==> Dedup.Live(w.cache, DedupKey(codec.decode(raw).value), now)) &&
      (r.outcome.Claimed() <==> !Dedup.Live(w.cache, DedupKey(codec.decode(raw).value), now))
    // A skipped run and a cache error leave the cache as it was; a claim sets
    // the key to expire 60 s from `now` and touches nothing else.
    ensures r.outcome.DuplicateSkipped? || r.outcome.RedisError? ==> r.world.cache == w.cache
    ensures r.outcome.Claimed() ==>
      r.world.cache == w.cache[DedupKey(codec.decode(raw).value) := now + Dedup.TtlSeconds]
    // The insert runs exactly when the dedup claim was granted, and the claim is
    // still held afterwards whatever the insert does.
    ensures r.world.inserts == w.inserts + (if r.outcome.Claimed() then 1 else 0)
    ensures r.outcome.Claimed() ==> Dedup.Live(r.world.cache, DedupKey(codec.decode(raw).value), now)
    // A row is stored exactly when the insert succeeded, and carries the parsed reading.
    ensures !r.outcome.Stored() ==> r.world.rows == w.rows
    ensures r.outcome.Stored() ==>
      var data := codec.decode(raw).value;
      r.world.rows == w.rows + [RowFor(codec.parseUuid(data.deviceId).value, data)]
    // Publish is attempted exactly when the insert succeeded.
    ensures r.world.sent == if r.outcome.Stored() then w.sent + [codec.decode(raw).value] else w.sent
    ensures r.outcome.InsertFailed? <==> r.outcome.Claimed() && f.insert(w.inserts).Some?
    ensures r.outcome.Processed? <==> r.outcome.Stored() && f.publish(|w.sent|).None?
  {
    match codec.decode(raw)
    case Err(e) => Run(w, ParseFailed(e))
    case Ok(data) =>
      match codec.parseUuid(data.deviceId)
      case Err(e) => Run(w, InvalidUuid(e))
      case Ok(id) =>
        var v := Dedup.Check(w.cache, f.cache(w.cacheCommands), data.deviceId, Unix(data.timestamp), now);
        var w1 := w.(cache := v.store, cacheCommands := w.cacheCommands + 1);
        if v.err.Some? then Run(w1, RedisError(v.err.value))
        else if v.duplicate then Run(w1, DuplicateSkipped)
        else
          var insertErr := f.insert(w.inserts);
          var w2 := w1.(inserts := w.inserts + 1,
                        rows := if insertErr.None? then w.rows + [RowFor(id, data)] else w.rows);
          if insertErr.Some? then Run(w2, InsertFailed(insertErr.value))
          else
            var publishErr := f.publish(|w.sent|);
            var w3 := w2.(sent := w.sent + [data]);
            if publishErr.Some? then Run(w3, PublishFailed(publishErr.value)) else Run(w3, Processed)
  }

  /** Idempotency: handling the same message twice less than 60 s apart, with
      the cache reachable, stores at most one row and publishes at most once.
      When the first run gets past the dedup gate, and in particular when the
      reading was new, the second run is skipped as a duplicate. */
  lemma HandleTwiceWithinTtl(codec: Codec, f: Faults, w: World, raw: seq<bv8>, t1: int, t2: int)
    requires t1 <= t2 < t1 + Dedup.TtlSeconds
    requires f.cache(w.cacheCommands).None? && f.cache(w.cacheCommands + 1).None?
    ensures var r1 := Pipeline(codec, f, w, raw, t1);
      var r2 := Pipeline(codec, f, r1.world, raw, t2);
      |r2.world.rows| <= |w.rows| + 1 && r2.world.inserts <= w.inserts + 1 &&
      |r2.world.sent| <= |w.sent| + 1 &&
      (r1.outcome.Claimed() ==> r2.outcome == DuplicateSkipped)
    ensures (codec.decode(raw).Ok? && codec.parseUuid(codec.decode(raw).value.deviceId).Ok? &&
             !Dedup.Live(w.cache, DedupKey(codec.decode(raw).value), t1)) ==>
      Pipeline(codec, f, w, raw, t1).outcome.Claimed() &&
      Pipeline(codec, f, Pipeline(codec, f, w, raw, t1).world, raw, t2).outcome == DuplicateSkipped
  {
    var r1 := Pipeline(codec, f, w, raw, t1);
    var r2 := Pipeline(codec, f, r1.world, raw, t2);
    if codec.decode(raw).Ok? && codec.parseUuid(codec.decode(raw).value.deviceId).Ok? {
      var key := DedupKey(codec.decode(raw).value);
      if r1.outcome.DuplicateSkipped? {
        assert r1.world.inserts == w.inserts && r1.world.rows == w.rows && r1.world.sent == w.sent;
      } else if r1.outcome.Claimed() {
        assert r1.world.cache[key] == t1 + Dedup.TtlSeconds;
        assert r2.outcome == DuplicateSkipped;
      }
    }
  }

  /** The window ends: a message first handled at t1 and handled again at
      least 60 s later passes the dedup gate again and is inserted again. */
  lemma HandleAgainAfterTtl(codec: Codec, f: Faults, w: World, raw: seq<bv8>, t1: int, t2: int)
    requires t1 + Dedup.TtlSeconds <= t2
    requires f.cache(w.cacheCommands + 1).None?
    requires Pipeline(codec, f, w, raw, t1).outcome.Claimed()
    ensures Pipeline(codec, f, Pipeline(codec, f, w, raw, t1).world, raw, t2).outcome.Claimed()
  {
    var r1 := Pipeline(codec, f, w, raw, t1);
    var key := DedupKey(codec.decode(raw).value);
    assert r1.world.cache[key] == t1 + Dedup.TtlSeconds;
  }

  /** The collaborators' current state. */
  function WorldOf(rdb: Dedup.Cache, q: Database, ch: Publisher): World
    reads rdb, q, ch
  {
    World(rdb.store, rdb.commands, q.rows, q.calls, ch.sent)
  }

  function FaultsOf(rdb: Dedup.Cache, q: Database, ch: Publisher): Faults
  {
    Faults(rdb.fault, q.fault, ch.fault)
  }

  /** `Handle`, lines 31-72. The Go function returns nothing; `outcome` names
      the exit it took, which the source only logs. */
  method Handle(codec: Codec, rdb: Dedup.Cache, q: Database, ch: Publisher, raw: seq<bv8>, now: int)
    returns (outcome: Outcome)
    modifies rdb, q, ch
    ensures Run(WorldOf(rdb, q, ch), outcome) == Pipeline(codec, FaultsOf(rdb, q, ch), old(WorldOf(rdb, q, ch)), raw, now)
  {
    var decoded := codec.decode(raw);
    if decoded.Err? {
      return ParseFailed(decoded.error);
    }
    var data := decoded.value;

    var parsed := codec.parseUuid(data.deviceId);
    if parsed.Err? {
      return InvalidUuid(parsed.error);
    }
    var deviceUuid := parsed.value;

    var dup, err := Dedup.IsDuplicate(rdb, data.deviceId, Unix(data.timestamp), now);
    if err.Some? {
      return RedisError(err.value);
    }
    if dup {
      return DuplicateSkipped;
    }

    var insertErr := q.InsertSensorData(InsertSensorDataParams(
      ToPgUuid(deviceUuid), ToPgTimestamp(data.timestamp),
      ToPgFloat64(data.temperature), ToPgFloat64(data.humidity)));
    if insertErr.Some? {
      return InsertFailed(insertErr.value);
    }

    var publishErr := ch.Publish(data);
    if publishErr.Some? {
      return PublishFailed(publishErr.value);
    }
    return Processed;
  }
}
