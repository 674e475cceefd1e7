/** internal/redis/redis.go: the deduplication gate. A reading is identified by
    the device id it arrived with and its timestamp in whole Unix seconds; the
    first `IsDuplicate` call for that pair claims a Redis key for 60 seconds
    and every later call inside that window is told "duplicate". */
module Dedup {
  import opened Base

  /** The lifetime of a claim: `60*time.Second`, sent to Redis as `EX 60`. */
  const TtlSeconds: int := 60

  /** The fixed start of every dedup key. */
  const KeyPrefix: string := "dedup:"

  // ---------------------------------------------------------------------
  // `%d` formatting of the int64 timestamp
  // ---------------------------------------------------------------------

  predicate IsDigit(c: char) { '0' <= c <= '9' }

  predicate AllDigits(s: string) { forall i :: 0 <= i < |s| ==> IsDigit(s[i]) }

  function DigitChar(d: nat): (c: char)
    requires d < 10
    ensures IsDigit(c) && c as int - '0' as int == d
  {
    ('0' as int + d) as char
  }

  /** The decimal digits of `n`, most significant first, with no leading zero. */
  function NatDigits(n: nat): (s: string)
    ensures 0 < |s| && AllDigits(s)
    decreases n
  {
    if n < 10 then [DigitChar(n)] else NatDigits(n / 10) + [DigitChar(n % 10)]
  }

  /** What `%d` prints for an integer: a minus sign for a negative one, then
      the digits of its magnitude. */
  function FormatInt(t: int): string
  {
    if t < 0 then "-" + NatDigits(-t) else NatDigits(t)
  }

  /** The strings `%d` can print. */
  predicate IsDecimal(s: string)
  {
    0 < |s| && (AllDigits(s) || (s[0] == '-' && 1 < |s| && AllDigits(s[1..])))
  }

  /** The value of a string of decimal digits. */
  function ParseNat(s: string): nat
    requires AllDigits(s)
  {
    if s == [] then 0 else ParseNat(s[..|s| - 1]) * 10 + (s[|s| - 1] as int - '0' as int)
  }

  /** The value of a string that `%d` printed. */
  function ParseInt(s: string): int
    requires IsDecimal(s)
  {
    if AllDigits(s) then ParseNat(s) else -(ParseNat(s[1..]) as int)
  }

  lemma {:induction false} ParseNatDigits(n: nat)
    ensures ParseNat(NatDigits(n)) == n
    decreases n
  {
    var s := NatDigits(n);
    if n >= 10 {
      ParseNatDigits(n / 10);
      assert s[..|s| - 1] == NatDigits(n / 10);
    }
  }

  /** `%d` loses nothing: the printed form reads back as the same integer. */
  lemma FormatIntRoundTrip(t: int)
    ensures IsDecimal(FormatInt(t)) && ParseInt(FormatInt(t)) == t
  {
    var s := FormatInt(t);
    if t < 0 {
      ParseNatDigits(-t);
      assert s[1..] == NatDigits(-t);
      assert !IsDigit(s[0]);
    } else {
      ParseNatDigits(t);
    }
  }

  /** A printed timestamp never contains the key separator. */
  lemma FormatIntHasNoColon(t: int)
    ensures 0 < |FormatInt(t)|
    ensures forall i :: 0 <= i < |FormatInt(t)| ==> FormatInt(t)[i] != ':'
  {
    var s := FormatInt(t);
    if t < 0 {
      assert forall i :: 1 <= i < |s| ==> s[i] == NatDigits(-t)[i - 1];
    }
  }

  // ---------------------------------------------------------------------
  // Key derivation (redis.go line 24)
  // ---------------------------------------------------------------------

  /** `fmt.Sprintf("dedup:%s:%d", deviceID, ts)`. */
  function Key(deviceId: string, ts: int): string
  {
    KeyPrefix + deviceId + ":" + FormatInt(ts)
  }

  /** The last ':' of a key is the one just before the printed timestamp. */
  lemma KeyEndsWithTimestamp(deviceId: string, ts: int)
    ensures var k, d := Key(deviceId, ts), FormatInt(ts);
      |d| < |k| && k[|k| - |d| - 1] == ':' && k[|k| - |d|..] == d &&
      k[..|k| - |d|] == KeyPrefix + deviceId + ":" &&
      forall i :: |k| - |d| <= i < |k| ==> k[i] != ':'
  {
    FormatIntHasNoColon(ts);
  }

  /** Distinct (device id, second) pairs get distinct keys, so one reading
      can never be taken for a duplicate of another. */
  lemma KeyInjective(id1: string, ts1: int, id2: string, ts2: int)
    requires Key(id1, ts1) == Key(id2, ts2)
    ensures id1 == id2 && ts1 == ts2
  {
    var k, d1, d2 := Key(id1, ts1), FormatInt(ts1), FormatInt(ts2);
    KeyEndsWithTimestamp(id1, ts1);
    KeyEndsWithTimestamp(id2, ts2);
    assert |d1| == |d2|;
    assert d1 == d2;
    FormatIntRoundTrip(ts1);
    FormatIntRoundTrip(ts2);
    var head := KeyPrefix + id1 + ":";
    assert head == KeyPrefix + id2 + ":";
    assert id1 == head[|KeyPrefix|..|head| - 1];
    assert id2 == head[|KeyPrefix|..|head| - 1];
  }

  // ---------------------------------------------------------------------
  // SETNX with expiry, and IsDuplicate on it
  // ---------------------------------------------------------------------

  /** Whether `key` is present in `store` and its expiry instant lies after `now`. */
  predicate Live(store: map<string, int>, key: string, now: int)
  {
    key in store && now < store[key]
  }

  /** `SET key 1 NX EX ttl` run at `now` by a server that answers: the new
      contents and SETNX's `ok`. A key whose expiry has passed counts as absent. */
  function SetIfAbsent(store: map<string, int>, key: string, ttl: int, now: int): (map<string, int>, bool)
  {
    if Live(store, key, now) then (store, false) else (store[key := now + ttl], true)
  }

  /** What one `IsDuplicate` call returns and leaves behind. */
  datatype Verdict = Verdict(store: map<string, int>, duplicate: bool, err: Option<Error>)

  /** `IsDuplicate(deviceId, ts)` against the contents `store` at instant `now`;
      `fault` is the error the SETNX command meets when the server cannot be
      reached. go-redis reports `ok == false` with an error, so `!ok` is true. */
  function Check(store: map<string, int>, fault: Option<Error>, deviceId: string, ts: int, now: int): (v: Verdict)
    ensures v.err == fault
    ensures fault.Some? ==> v.duplicate && v.store == store
    ensures fault.None? ==> (v.duplicate <==> Live(store, Key(deviceId, ts), now))
    ensures v.duplicate ==> v.store == store
    ensures !v.duplicate ==> v.store == store[Key(deviceId, ts) := now + TtlSeconds]
    ensures v.store - {Key(deviceId, ts)} == store - {Key(deviceId, ts)}
  {
    if fault.Some? then Verdict(store, true, fault)
    else
      var (s, ok) := SetIfAbsent(store, Key(deviceId, ts), TtlSeconds, now);
      Verdict(s, !ok, None)
  }

  /** The verdicts of successive fault-free calls for one reading at the given instants. */
  function Replay(store: map<string, int>, deviceId: string, ts: int, times: seq<int>): seq<bool>
    decreases |times|
  {
    if times == [] then []
    else
      var v := Check(store, None, deviceId, ts, times[0]);
      [v.duplicate] + Replay(v.store, deviceId, ts, times[1..])
  }

  lemma {:induction false} ReplayWhileLive(store: map<string, int>, deviceId: string, ts: int, times: seq<int>)
    requires Key(deviceId, ts) in store
    requires forall i :: 0 <= i < |times| ==> times[i] < store[Key(deviceId, ts)]
    ensures |Replay(store, deviceId, ts, times)| == |times|
    ensures forall i :: 0 <= i < |times| ==> Replay(store, deviceId, ts, times)[i]
  {
    if times != [] {
      ReplayWhileLive(store, deviceId, ts, times[1..]);
    }
  }

  /** First call wins: from a store where the reading's key is absent or
      lapsed, the first call is told "not a duplicate" and every later call
      made less than 60 s after it is told "duplicate". */
  lemma FirstClaimWins(store: map<string, int>, deviceId: string, ts: int, times: seq<int>)
    requires 0 < |times| && !Live(store, Key(deviceId, ts), times[0])
    requires forall i :: 0 <= i < |times| ==> times[i] < times[0] + TtlSeconds
    ensures |Replay(store, deviceId, ts, times)| == |times|
    ensures !Replay(store, deviceId, ts, times)[0]
    ensures forall i :: 1 <= i < |times| ==> Replay(store, deviceId, ts, times)[i]
  {
    var v := Check(store, None, deviceId, ts, times[0]);
    ReplayWhileLive(v.store, deviceId, ts, times[1..]);
  }

  /** The window is bounded: once 60 s have passed since a claim, the same
      reading is accepted again and claimed afresh. */
  lemma ClaimLapses(store: map<string, int>, deviceId: string, ts: int, t1: int, t2: int)
    requires !Check(store, None, deviceId, ts, t1).duplicate
    requires t1 + TtlSeconds <= t2
    ensures var v := Check(Check(store, None, deviceId, ts, t1).store, None, deviceId, ts, t2);
      !v.duplicate && v.store[Key(deviceId, ts)] == t2 + TtlSeconds
  {
  }

  /** Claims for different readings do not interfere: claiming one leaves the
      verdict for any other unchanged. */
  lemma ClaimsAreIndependent(store: map<string, int>, id1: string, ts1: int, id2: string, ts2: int, t1: int, t2: int)
    requires id1 != id2 || ts1 != ts2
    ensures Check(Check(store, None, id1, ts1, t1).store, None, id2, ts2, t2).duplicate
         == Check(store, None, id2, ts2, t2).duplicate
  {
    if Key(id1, ts1) == Key(id2, ts2) {
      KeyInjective(id1, ts1, id2, ts2);
    }
  }

  /** The Redis server as IsDuplicate sees it. */
  class Cache {
    /** Every key with the instant (Unix seconds) at which it expires. */
    var store: map<string, int>
    /** How many commands have been sent. */
    var commands: nat
    /** The error the n-th command meets when the server cannot be reached. */
    const fault: nat -> Option<Error>

    constructor (fault: nat -> Option<Error>)
      ensures store == map[] && commands == 0
      ensures forall n :: this.fault(n) == fault(n)
    {
      store := map[];
      commands := 0;
      this.fault := fault;
    }

    /** `client.SetNX(ctx, key, 1, ttl).Result()`. */
    method SetNX(key: string, ttl: int, now: int) returns (ok: bool, err: Option<Error>)
      modifies this
      ensures commands == old(commands) + 1
      ensures err == fault(old(commands))
      ensures err.Some? ==> !ok && store == old(store)
      ensures err.None? ==> (store, ok) == SetIfAbsent(old(store), key, ttl, now)
    {
      err := fault(commands);
      commands := commands + 1;
      if err.Some? {
        ok := false;
      } else {
        ok := !Live(store, key, now);
        if ok {
          store := store[key := now + ttl];
        }
      }
    }
  }

  /** redis.go lines 23-27: claim the reading's key for 60 s and report
      "duplicate" when it was already held. `now` is the server's clock. */
  method IsDuplicate(client: Cache, deviceId: string, ts: int, now: int) returns (dup: bool, err: Option<Error>)
    modifies client
    ensures client.commands == old(client.commands) + 1
    ensures Verdict(client.store, dup, err)
         == Check(old(client.store), client.fault(old(client.commands)), deviceId, ts, now)
  {
    var key := Key(deviceId, ts);
    var ok;
    ok, err := client.SetNX(key, TtlSeconds, now);
    dup := !ok;
  }
}
