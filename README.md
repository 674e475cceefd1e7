# IoT ingestor core, modelled in Dafny

The IoT ingestor takes sensor readings from an MQTT broker and passes each
one through a short pipeline:

1. decode the JSON;
2. check the device id is a UUID;
3. claim a Redis deduplication key for 60 seconds;
4. insert a row into PostgreSQL;
5. publish the reading to a RabbitMQ fanout exchange.

This project models the parts of the Go code that hold logic of their own and
proves what they promise.

- `base.dfy`, module `Base`: the `Error`, `Option` and `Result` types every
  module shares, plus `Second` (Go's `time.Second` in nanoseconds), `Pow2`, and
  the lemmas `Pow2Grows` and `Pow2AtLeast` that both backoff loops use.
- `dedup.dfy`, module `Dedup` (`internal/redis/redis.go`):
  - the key `dedup:<device id>:<unix seconds>` and the `%d` formatting of the
    timestamp;
  - a set-if-absent with expiry over a map from key to expiry instant;
  - `IsDuplicate` over a `Cache` object whose commands can fail.
- `ingestor.dfy`, module `Ingestor` (`cmd/ingestor/main.go`):
  - `mustGetEnv`;
  - the goroutine that connects and subscribes to the MQTT broker with a
    backoff of 1 s doubling up to 60 s.
- `processor.dfy`, module `Processor` (`internal/processor/processor.go`):
  - `Handle`'s stage sequence over three collaborator objects: the Redis
    cache, a `Database` with `InsertSensorData`, and a `Publisher`;
  - the `toPg*` wrappers;
  - `Pipeline`, the specification `Handle` is proved against.
- `rabbitmq.dfy`, module `RabbitMQ` (`internal/rabbitmq/rabbitmq.go`):
  - `RabbitMQClient` as the class `Client`, with its `conn` and `channel`
    fields;
  - the methods `connect`, `Publish`, `handleReconnect` and `Close`, plus
    `NewClient`.

How the AMQP side is modelled:

- The AMQP library, the broker and the clock together form a `Transport`
  object.
- Every call the client makes is appended to the transport's log: dial, open
  a channel, declare, probe `IsClosed`, publish, sleep, close, or wait for a
  close notification.
- The answer to the call at log position n comes from two oracle functions,
  `answer` and `closed`.
- Each method is proved to leave exactly the state and log that a
  specification function (`ConnectSpec`, `RoundSpec`, `PublishSpec`,
  `ReconnectLoop`) computes.
- Lemmas prove what those specifications promise: call bounds, the pause
  after each refused send, the error a give-up carries, and the reconnect
  backoff schedule.

In three places the code does not do what the system is meant to do. The
model follows the code:

- `handleReconnect` is meant to go back to watching the new connection after
  a successful reconnect. The code returns instead (`rabbitmq.go:75`), so
  the outer `for` never repeats and nothing watches the new connection.
- `Publish` is meant to pause a fixed 1 s between its attempts. The code
  sleeps only after a refused send (`rabbitmq.go:121`). That includes the
  third send, just before giving up, and excludes a failed inline reconnect.
- `Handle` returns nothing (`processor.go:32`). The model returns the exit it
  took as an `Outcome`, which the source only logs.

## Model

| member | source | states |
|---|---|---|
| Dedup.FormatIntRoundTrip | internal/redis/redis.go:24 | what `%d` prints for the int64 timestamp is a decimal string that parses back to the same integer, negative values included |
| Dedup.FormatIntHasNoColon | internal/redis/redis.go:24 | the printed timestamp is non-empty and never contains the key separator ':' |
| Dedup.KeyEndsWithTimestamp | internal/redis/redis.go:24 | a key is "dedup:" + device id + ":" + printed timestamp, and its last ':' sits right before the timestamp |
| Dedup.KeyInjective | internal/redis/redis.go:24 | two readings with the same key have the same device id and the same second, so distinct (device, second) pairs never collide |
| Dedup.Check | internal/redis/redis.go:23-27 | with the cache reachable, the reading is a duplicate exactly when its key is live at `now`; a new reading's key is claimed until now + 60 s and no other key changes; an unreachable cache returns its error with `dup` true (`!ok` with `ok` false) and changes nothing |
| Dedup.FirstClaimWins | internal/redis/redis.go:25-26 | for repeated calls within 60 s of the first, from a store where the key is absent or lapsed, the first call is not a duplicate and every later call is |
| Dedup.ClaimLapses | internal/redis/redis.go:25 | 60 s or more after a claim, the same reading is accepted again and claimed until the new instant + 60 s |
| Dedup.ClaimsAreIndependent | internal/redis/redis.go:24-26 | claiming one reading never changes the verdict for a different (device, second) pair |
| Dedup.Cache.SetNX | internal/redis/redis.go:25 | one command is sent; its error leaves the store alone with `ok` false; otherwise the store and `ok` are those of set-if-absent with expiry |
| Dedup.IsDuplicate | internal/redis/redis.go:23-27 | sends one SETNX for `Key(deviceID, ts)` with a 60 s expiry and returns `!ok` and the error, exactly as `Check` states |
| Ingestor.MustGetEnv | cmd/ingestor/main.go:26-32 | succeeds exactly when the variable is set and non-empty, returning its value; otherwise fails with "Missing required environment variable: " + key |
| Ingestor.NextDelayDoubles | cmd/ingestor/main.go:100 | one step of `min(2*delay, 1 minute)` takes the delay after k failures to the delay after k + 1 |
| Ingestor.RetryDelayClosedForm | cmd/ingestor/main.go:88-101 | after any passes, the delay the loop holds is min(2^k s, 60 s), where k is the number of failed connects |
| Ingestor.BackoffBounds | cmd/ingestor/main.go:88-100 | the delay starts at 1 s, never decreases, never exceeds 60 s, and is 60 s from the sixth failure on |
| Ingestor.SleepsFollowSchedule | cmd/ingestor/main.go:89-107 | the loop sleeps only after a failed connect, and its sleeps are exactly 1 s, 2 s, 4 s, ... capped at 60 s; a failed subscribe neither sleeps nor changes the delay |
| Ingestor.ConnectWithBackoff | cmd/ingestor/main.go:87-112 | the loop stops at the first pass where connect and subscribe both succeed, and only there; its steps are those of `Trace`, and the delay it holds is the closed-form backoff |
| Processor.RowKeepsReading | internal/processor/processor.go:74-96 | the `toPg*` wrappers are never NULL and the inserted row carries the parsed UUID, the timestamp, the temperature and the humidity unchanged |
| Processor.Database.InsertSensorData | internal/processor/processor.go:55-60 | one insert is attempted, and the row is stored exactly when it succeeds |
| Processor.Publisher.Publish | internal/processor/processor.go:66 | the reading is handed over and the call's error is reported |
| Processor.Pipeline | internal/processor/processor.go:32-72 | each stage runs exactly when all earlier stages succeeded. A parse or UUID failure touches nothing. Every later exit sends one SETNX for the payload's key. A cache error stops before the duplicate check. With the cache reachable, a valid reading is skipped as a duplicate exactly when its key is live at `now`; otherwise its key is set to expire at now + 60 s, no other key changes, and the insert runs. A skipped run or a cache error leaves the cache as it was. A row is stored, with the reading as decoded, exactly when the insert succeeds. The publish runs exactly when the row was stored. |
| Processor.HandleTwiceWithinTtl | internal/processor/processor.go:45-60 | the same message handled twice within 60 s, with the cache reachable, stores at most one row and publishes at most once; the second run is skipped as a duplicate whenever the first got past the gate, and in particular when the reading was new |
| Processor.HandleAgainAfterTtl | internal/processor/processor.go:45-53 | the same message handled 60 s or more after a run that claimed it passes the dedup gate again |
| Processor.Handle | internal/processor/processor.go:32-72 | the collaborators' new state and the exit taken are exactly those of `Pipeline` |
| RabbitMQ.ConnectSpec | internal/rabbitmq/rabbitmq.go:39-60 | a connect that returns nil leaves a channel in place |
| RabbitMQ.ConnectOrder | internal/rabbitmq/rabbitmq.go:39-60 | connect makes dial, channel open and declare in that order, each only after the previous one succeeded, and returns the last one's error. A failed dial leaves `conn` nil and the old channel in place. A failed channel open leaves `channel` nil. |
| RabbitMQ.ConnectSucceeds | internal/rabbitmq/rabbitmq.go:51-59 | a successful connect leaves a connection and a channel, and has declared the durable fanout exchange, with no arguments, on that channel as its last call |
| RabbitMQ.ConnectAcceptsOnlyLast | internal/rabbitmq/rabbitmq.go:39-60 | connect only appends to the log, and a declare the broker accepted can only be its last call, on a connect that returns nil |
| RabbitMQ.ConnectCounts | internal/rabbitmq/rabbitmq.go:39-60 | every connect dials once and neither sends, probes nor sleeps |
| RabbitMQ.Client.constructor | internal/rabbitmq/rabbitmq.go:25-28 | a new client holds no connection and no channel, with the given URL and exchange name |
| RabbitMQ.Client.Connect | internal/rabbitmq/rabbitmq.go:39-60 | the client's fields and the transport log after `connect` are exactly those of `ConnectSpec` |
| RabbitMQ.NewClient | internal/rabbitmq/rabbitmq.go:23-37 | connects once; hands back a fresh client exactly when that connect succeeded, and the error otherwise |
| RabbitMQ.PublishReturns | internal/rabbitmq/rabbitmq.go:100-124 | the `error` Publish returns is nil exactly when its last call is an accepted send of the marshalled payload; a marshal error is returned as it is; after three failed iterations it is "failed to publish after retries: " + the error of the last call the broker refused |
| RabbitMQ.ProbeSpec | internal/rabbitmq/rabbitmq.go:93-98 | after the probe and inline reconnect without an error, a channel is held |
| RabbitMQ.ProbeFacts | internal/rabbitmq/rabbitmq.go:93-98 | the probe and inline reconnect probe at most once, dial exactly when the channel was found closed, send nothing and never sleep; a failed reconnect ends on the call the broker refused |
| RabbitMQ.SendFacts | internal/rabbitmq/rabbitmq.go:105-121 | one send of the JSON body to the exchange, routing key "", neither mandatory nor immediate; a refusal is followed by a 1 s sleep and passes its error on, and an acceptance ends the iteration |
| RabbitMQ.RoundSpec | internal/rabbitmq/rabbitmq.go:93 | an iteration panics exactly when the channel is nil and nil is not treated as closed |
| RabbitMQ.RoundCounts | internal/rabbitmq/rabbitmq.go:93-121 | an iteration probes, dials and sends at most once each. It dials only for a closed or nil channel and sends nothing when marshalling fails. It sleeps 1 s exactly after a refused send. An iteration that goes on to the next one has dialled or sent. |
| RabbitMQ.RoundEnds | internal/rabbitmq/rabbitmq.go:93-121 | an iteration continues only after a refused call, whose error it keeps as `lastErr`. It fails only with the marshal error. It succeeds only right after an accepted send of the payload. |
| RabbitMQ.PublishCallsBounded | internal/rabbitmq/rabbitmq.go:89-122 | one Publish probes, reconnects inline and sends at most three times each, and sends nothing when marshalling fails |
| RabbitMQ.PublishPauses | internal/rabbitmq/rabbitmq.go:117-121 | every pause Publish makes is 1 s, and it makes one per send except the accepted send that ends a successful call, and no others |
| RabbitMQ.PublishStopsAtFirstAcceptedSend | internal/rabbitmq/rabbitmq.go:105-121 | Publish only appends to the log. A send the broker accepted is its last call, and only in a call that returns nil, so it never sends again after an accepted send. Every refused send is followed at once by a 1 s sleep, and every sleep comes right after a refused send. |
| RabbitMQ.PublishGivesUpLate | internal/rabbitmq/rabbitmq.go:92-124 | Publish gives up only after three iterations that each dialled or sent |
| RabbitMQ.PublishSucceedsOnlyAfterAcceptedSend | internal/rabbitmq/rabbitmq.go:105-119 | Publish returns nil only when its last call is a send of the marshalled payload, on the channel the client now holds, which the broker accepted |
| RabbitMQ.PublishFailsOnlyOnMarshal | internal/rabbitmq/rabbitmq.go:100-103 | the only error Publish returns unwrapped is the marshal error |
| RabbitMQ.PublishExhaustedCarriesLastError | internal/rabbitmq/rabbitmq.go:94-124 | when Publish gives up, the error it wraps is that of the last call the broker refused: a send, or a call of the inline reconnect |
| RabbitMQ.PublishAsWrittenCanPanic | internal/rabbitmq/rabbitmq.go:93 | as written, a closed channel whose inline reconnect dials but fails to open a channel leaves `channel` nil, and the next iteration's `IsClosed` panics |
| RabbitMQ.NilSafePublishNeverPanics | internal/rabbitmq/rabbitmq.go:93-98 | with a nil channel treated as closed, Publish never panics |
| RabbitMQ.Client.ProbeAndReconnect | internal/rabbitmq/rabbitmq.go:93-98 | fields and log after the probe and inline reconnect are exactly those of `ProbeSpec` |
| RabbitMQ.Client.SendOnce | internal/rabbitmq/rabbitmq.go:105-121 | the log after the send and its pause is exactly that of `SendSpec` |
| RabbitMQ.Client.PublishOnce | internal/rabbitmq/rabbitmq.go:93-121 | fields and log after one iteration are exactly those of `RoundSpec` |
| RabbitMQ.Client.PublishLoopWith | internal/rabbitmq/rabbitmq.go:89-124 | the three-iteration loop leaves exactly the fields, log and result of `PublishSpec` |
| RabbitMQ.Client.Publish | internal/rabbitmq/rabbitmq.go:88-125 | `Publish` as written leaves exactly the fields, log and result of `PublishSpec` |
| RabbitMQ.Client.PublishNilSafe | internal/rabbitmq/rabbitmq.go:88-125 | the corrected `Publish` follows `PublishSpec` with a nil channel treated as closed, and never panics |
| RabbitMQ.NextWaitDoubles | internal/rabbitmq/rabbitmq.go:78-81 | doubling and capping at 30 s takes the wait before attempt k to the wait before attempt k + 1 |
| RabbitMQ.WaitBounds | internal/rabbitmq/rabbitmq.go:68-81 | the reconnect wait starts at 1 s, never decreases, never exceeds 30 s, and is 30 s from the sixth attempt on |
| RabbitMQ.ReconnectFollowsSchedule | internal/rabbitmq/rabbitmq.go:69-83 | the reconnect loop dials once per attempt, and its sleeps are one per attempt, following 1, 2, 4, 8, 16, 30, 30, ... s. A run that does not reconnect uses every attempt. A run that reconnects ends on an accepted exchange declare, and an accepted declare is only ever the loop's last call, so it stops at the first connect that succeeds. It never probes or sends. |
| RabbitMQ.ReconnectSleepsBeforeDial | internal/rabbitmq/rabbitmq.go:69-72 | every dial of the reconnect loop comes right after a sleep, and the loop only appends to the log |
| RabbitMQ.Client.Attempt | internal/rabbitmq/rabbitmq.go:70-72 | one attempt sleeps the current wait, then connects, as `ConnectSpec` states |
| RabbitMQ.Client.Reconnect | internal/rabbitmq/rabbitmq.go:68-83 | fields, log and result of the inner loop are exactly those of `ReconnectLoop` from a 1 s wait |
| RabbitMQ.Client.HandleReconnect | internal/rabbitmq/rabbitmq.go:62-85 | waits for the close notification on the current connection, then runs the inner reconnect loop, as `ReconnectLoop` states |
| RabbitMQ.Client.Close | internal/rabbitmq/rabbitmq.go:128-135 | closes the channel, then the connection, each only when it is not nil, and does nothing else |

## Left out

- Concurrency:
  - `NewClient` does not start a goroutine; `Client.HandleReconnect` is
    modelled as a method of its own.
  - The race between it and `Publish`'s inline reconnect is not modelled.
  - Concurrent `Handle` calls are not modelled.
- Dedup.Check: a cache error is modelled as a command that never reached the
  server, so it leaves the store unchanged. go-redis can also report an error,
  such as a read timeout, after the server applied the SETNX (`redis.go:25`).
  The key is then claimed while `Handle` takes the cache-error exit
  (`processor.go:46-48`), and a retransmission within 60 s is skipped as a
  duplicate. That case is not modelled.
- Dedup.Cache.SetNX: for the same reason, an error leaves the store unchanged;
  a command that the server applied but whose reply was lost is not modelled.
- The close reason delivered by `NotifyClose` and every log line are not
  modelled: they hold no control flow.
- `amqp091-go`, the broker and `time.Sleep` are the `Transport` object with
  oracle answers. `Publishing.Timestamp` (`time.Now()`) is not modelled.
- `json.Marshal` in `Publish` is the `encoded` parameter. `json.Unmarshal`
  and `uuid.Parse` in `Handle` are given functions (`Codec`).
- `float64` readings are opaque bit patterns, because they are only carried,
  never computed with.
- The Redis clock is the `now` parameter, in whole seconds, and the stored
  value "1" is not modelled, because only the key's presence matters.
  `redis.Init` is not modelled.
- Not modelled in `main`, because it is start-up and shutdown plumbing around
  the modelled operations:
  - loading `.env`, creating the logger and the cancellable context (lines
    34-38);
  - assembling the PostgreSQL URL from five settings (lines 41-45) and opening
    the `pgxpool` pool, whose failure ends the process (lines 47-51);
  - the Redis address handed to `redis.Init` (line 57);
  - the AMQP URL and the exchange name "sensor_exchange" handed to
    `rabbitmq.NewClient`, whose failure ends the process (lines 61-69);
  - the MQTT message callback (lines 72-84), which hands each message to
    `Handle` and logs its topic, duration and error;
  - shutdown (lines 114-126): on SIGINT or SIGTERM, cancel the context and
    disconnect MQTT with a 250 ms quiesce, or return when the context is done.
- `internal/mqtt/mqtt.go`, `internal/logger/logger.go` and `internal/db` are
  not part of this model. The MQTT client's `Connect` and `Subscribe` are the
  broker answers in `ConnectWithBackoff`'s script.
- Ingestor.ConnectWithBackoff: the Go loop has no bound; the model stops when
  its finite script of broker answers runs out, and reports that.
- RabbitMQ.Client.HandleReconnect: the Go loop has no bound; the model stops
  after `attempts` connect attempts, and reports whether one succeeded.
- Processor.Publisher.Publish: `processor.go:66` calls a package-level
  `rabbitmq.Publish(ch, "sensor_exchange", data)` that `rabbitmq.go` does not
  define. `main.go:76` also passes the `RabbitMQClient` where `Handle` takes a
  channel, and uses a result `Handle` does not return. So the publish step is
  a collaborator that reports success or an error, not
  `RabbitMQ.Client.Publish`.

## Findings

| source | as written | input that shows it | evidently intended | confidence | as-written member | corrected member |
|---|---|---|---|---|---|---|
| internal/rabbitmq/rabbitmq.go:93 | `c.channel.IsClosed()` is called on whatever the last `connect` left in `c.channel`; a failed `c.conn.Channel()` at line 46 leaves it nil | a channel found closed on the first iteration, whose inline reconnect dials successfully and then has `Channel()` refused: the second iteration calls `IsClosed` on a nil channel and panics | a nil channel is treated as closed and reconnected | not executed | RabbitMQ.PublishAsWrittenCanPanic | RabbitMQ.NilSafePublishNeverPanics |
