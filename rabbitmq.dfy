/** internal/rabbitmq/rabbitmq.go: the publish-side client of the AMQP broker.
    `RabbitMQClient` holds a connection and a channel and replaces both on
    `connect`; `Publish` retries a send up to three times, reconnecting
    inline when it finds the channel closed; `handleReconnect` reconnects
    with a capped exponential backoff once the broker drops the connection;
    `Close` releases whatever is held.

    The AMQP library, the broker behind it and the process clock form the
    `Transport`: every call the client makes is appended to its log, and the
    answer to the call at log position n is supplied by the oracles `answer`
    and `closed`. Sleeps are recorded in the same log, as durations. */
module RabbitMQ {
  import opened Base

  /** `maxRetries`, line 89. */
  const MaxRetries: nat := 3
  /** The cap on the reconnect wait, lines 79-81. */
  const MaxReconnectWait: nat := 30 * Second
  const ContentType: string := "application/json"
  const ExhaustedPrefix: string := "failed to publish after retries: "

  /** An AMQP connection or channel object, named by the log position of the
      call that opened it. */
  datatype Handle = Handle(id: nat)

  /** The arguments of `ExchangeDeclare`; `args == None` is Go's nil table. */
  datatype ExchangeDecl = ExchangeDecl(
    name: string, kind: string, durable: bool, autoDelete: bool, internal: bool, noWait: bool,
    args: Option<map<string, string>>)

  /** Lines 51-59: a durable fanout exchange, not auto-deleted, not internal,
      waited for, with no arguments. */
  function FanoutDecl(name: string): ExchangeDecl
  {
    ExchangeDecl(name, "fanout", true, false, false, false, None)
  }

  /** `amqp091.Publishing` as sent; its `Timestamp` (`time.Now()`) is not modelled. */
  datatype Publishing = Publishing(contentType: string, body: seq<bv8>)

  /** One call the client makes, in the order it makes them. */
  datatype Effect =
    | Dial(url: string)
    | OpenChannel(conn: Handle)
    | Declare(channel: Handle, decl: ExchangeDecl)
    | Probe(channel: Handle)
    | Send(channel: Handle, exchange: string, routingKey: string, mandatory: bool, immediate: bool, msg: Publishing)
    | Sleep(duration: nat)
    | CloseChannel(channel: Handle)
    | CloseConnection(conn: Handle)
    | AwaitClose(conn: Handle)

  /** The oracles: the error, if any, answered to the call at log position n
      (for Dial, OpenChannel, Declare and Send), and whether the channel is
      closed when probed at position n. */
  datatype Wire = Wire(answer: nat -> Option<Error>, closed: nat -> bool)

  /** The client's fields `conn` and `channel` (None is Go's nil) and the
      transport log. */
  datatype State = State(conn: Option<Handle>, channel: Option<Handle>, log: seq<Effect>)

  /** What a piece of the client's work leaves behind, and its result. */
  datatype Step<T> = Step(state: State, value: T)

  /** `s` with `e` appended to its log. */
  function Then(s: State, e: Effect): State
  {
    State(s.conn, s.channel, s.log + [e])
  }

  // ---------------------------------------------------------------------
  // Counting what a log holds
  // ---------------------------------------------------------------------

  /** The calls that are counted. */
  datatype Kind = DialKind | SendKind | ProbeKind

  predicate IsKind(e: Effect, k: Kind)
  {
    match k
    case DialKind => e.Dial?
    case SendKind => e.Send?
    case ProbeKind => e.Probe?
  }

  /** The number of calls of kind `k` among the first `n` of `d`. */
  function CountIn(d: seq<Effect>, n: nat, k: Kind): nat
    requires n <= |d|
  {
    if n == 0 then 0 else CountIn(d, n - 1, k) + (if IsKind(d[n - 1], k) then 1 else 0)
  }

  /** The durations slept among the first `n` calls of `d`, in order. */
  function SleepsIn(d: seq<Effect>, n: nat): seq<nat>
    requires n <= |d|
  {
    if n == 0 then [] else SleepsIn(d, n - 1) + (if d[n - 1].Sleep? then [d[n - 1].duration] else [])
  }

  function Dials(d: seq<Effect>): nat
  {
    CountIn(d, |d|, DialKind)
  }

  function Sends(d: seq<Effect>): nat
  {
    CountIn(d, |d|, SendKind)
  }

  function Probes(d: seq<Effect>): nat
  {
    CountIn(d, |d|, ProbeKind)
  }

  /** The durations slept, in order. */
  function Sleeps(d: seq<Effect>): seq<nat>
  {
    SleepsIn(d, |d|)
  }

  /** Appending a call leaves the counts over the calls before it alone. */
  lemma {:induction false} PrefixKept(d: seq<Effect>, e: Effect, n: nat)
    requires n <= |d|
    ensures CountIn(d + [e], n, DialKind) == CountIn(d, n, DialKind)
    ensures CountIn(d + [e], n, SendKind) == CountIn(d, n, SendKind)
    ensures CountIn(d + [e], n, ProbeKind) == CountIn(d, n, ProbeKind)
    ensures SleepsIn(d + [e], n) == SleepsIn(d, n)
  {
    if n > 0 {
      PrefixKept(d, e, n - 1);
      assert (d + [e])[n - 1] == d[n - 1];
    }
  }

  /** What appending one call adds to each count. */
  lemma CountsSnoc(d: seq<Effect>, e: Effect)
    ensures Dials(d + [e]) == Dials(d) + (if e.Dial? then 1 else 0)
    ensures Sends(d + [e]) == Sends(d) + (if e.Send? then 1 else 0)
    ensures Probes(d + [e]) == Probes(d) + (if e.Probe? then 1 else 0)
    ensures Sleeps(d + [e]) == Sleeps(d) + (if e.Sleep? then [e.duration] else [])
  {
    PrefixKept(d, e, |d|);
  }

  // ---------------------------------------------------------------------
  // connect (lines 39-60)
  // ---------------------------------------------------------------------

  /** The three calls of a full connect starting at log position n. */
  function ConnectCalls(n: nat, url: string, exchange: string): seq<Effect>
  {
    [Dial(url), OpenChannel(Handle(n)), Declare(Handle(n + 1), FanoutDecl(exchange))]
  }

  /** `connect` from the state `s`: Dial, then open a channel, then declare
      the exchange, stopping at the first error and returning it. Each step
      assigns the field it opens, so a failed Dial leaves `conn` nil and a
      failed channel open leaves `channel` nil. */
  function ConnectSpec(w: Wire, url: string, exchange: string, s: State): (r: Step<Option<Error>>)
    ensures r.value.None? ==> r.state.channel.Some?
  {
    var n := |s.log|;
    var dialed := Then(s, Dial(url));
    if w.answer(n).Some? then Step(dialed.(conn := None), w.answer(n))
    else
      var channelOpen := Then(dialed, OpenChannel(Handle(n)));
      if w.answer(n + 1).Some? then Step(channelOpen.(conn := Some(Handle(n)), channel := None), w.answer(n + 1))
      else
        var declared := Then(channelOpen, Declare(Handle(n + 1), FanoutDecl(exchange)));
        Step(declared.(conn := Some(Handle(n)), channel := Some(Handle(n + 1))), w.answer(n + 2))
  }

  /** connect makes its k calls in order, each only after the previous one
      succeeded, and returns the error of the last one: k < 3 exactly when a
      call failed. A failed Dial leaves the connection nil and the old channel
      in place; a failed channel open leaves the channel nil; after a failed
      declare the new connection and channel stay. */
  lemma ConnectOrder(w: Wire, url: string, exchange: string, s: State)
    ensures var r, n := ConnectSpec(w, url, exchange, s), |s.log|;
      var k := |r.state.log| - n;
      1 <= k <= 3 && r.state.log == s.log + ConnectCalls(n, url, exchange)[..k] &&
      r.value == w.answer(n + k - 1) && (k < 3 ==> r.value.Some?) &&
      (2 <= k ==> w.answer(n).None?) && (k == 3 ==> w.answer(n + 1).None?) &&
      (k == 1 ==> r.state.conn == None && r.state.channel == s.channel) &&
      (2 <= k ==> r.state.conn == Some(Handle(n))) &&
      (k == 2 ==> r.state.channel == None) &&
      (k == 3 ==> r.state.channel == Some(Handle(n + 1)))
  {
    var n := |s.log|;
    var calls := ConnectCalls(n, url, exchange);
    if w.answer(n).Some? {
      assert calls[..1] == [Dial(url)];
    } else if w.answer(n + 1).Some? {
      assert calls[..2] == [Dial(url), OpenChannel(Handle(n))];
    } else {
      assert calls[..3] == calls;
    }
  }

  /** A connect that succeeds leaves a live connection and channel behind and
      has declared the fanout exchange on that channel, as its last call. */
  lemma ConnectSucceeds(w: Wire, url: string, exchange: string, s: State)
    requires ConnectSpec(w, url, exchange, s).value.None?
    ensures var r := ConnectSpec(w, url, exchange, s);
      r.state.conn.Some? && r.state.channel.Some? &&
      r.state.log == s.log + [Dial(url), OpenChannel(r.state.conn.value), Declare(r.state.channel.value, FanoutDecl(exchange))] &&
      w.answer(|r.state.log| - 1).None?
  {
    ConnectOrder(w, url, exchange, s);
  }

  /** Any connect, failed or not, dials once and neither sends, probes nor sleeps. */
  lemma ConnectCounts(w: Wire, url: string, exchange: string, s: State)
    ensures var d := ConnectSpec(w, url, exchange, s).state.log;
      Dials(d) == Dials(s.log) + 1 && Sends(d) == Sends(s.log) &&
      Probes(d) == Probes(s.log) && Sleeps(d) == Sleeps(s.log)
  {
    var n := |s.log|;
    var d1 := s.log + [Dial(url)];
    var d2 := d1 + [OpenChannel(Handle(n))];
    CountsSnoc(s.log, Dial(url));
    CountsSnoc(d1, OpenChannel(Handle(n)));
    CountsSnoc(d2, Declare(Handle(n + 1), FanoutDecl(exchange)));
  }

  // ---------------------------------------------------------------------
  // Publish (lines 88-125)
  // ---------------------------------------------------------------------

  /** What Publish ends with. `Exhausted` carries `lastErr`; `Panicked` is
      `IsClosed` called on a nil channel, which Go turns into a panic. */
  datatype PublishResult = Published | Failed(err: Error) | Exhausted(last: Error) | Panicked
  {
    /** The `error` Publish returns, for a run that returns. */
    function GoError(): Option<Error>
      requires !Panicked?
    {
      match this
      case Published => None
      case Failed(e) => Some(e)
      case Exhausted(last) => Some(Error(ExhaustedPrefix + last.text))
    }
  }

  /** How one iteration of the loop ends: `continue` with `lastErr`, or return. */
  datatype RoundEnd = Retry(err: Error) | Done(result: PublishResult)

  /** The send of an iteration on channel `ch`: to `exchange`, routing key
      "", not mandatory, not immediate, as JSON. */
  function SendOf(ch: Handle, exchange: string, body: seq<bv8>): Effect
  {
    Send(ch, exchange, "", false, false, Publishing(ContentType, body))
  }

  /** The probe and the inline reconnect that begin an iteration (lines
      93-98). A nil channel is reconnected without a probe; only the
      corrected Publish reaches that case. */
  function ProbeSpec(w: Wire, url: string, exchange: string, s: State): (r: Step<Option<Error>>)
    ensures r.value.None? ==> r.state.channel.Some?
  {
    if s.channel.None? then ConnectSpec(w, url, exchange, s)
    else
      var probed := Then(s, Probe(s.channel.value));
      if w.closed(|s.log|) then ConnectSpec(w, url, exchange, probed) else Step(probed, None)
  }

  /** The send that ends an iteration (lines 105-121): publish on the
      channel; after a refusal sleep 1 s and go on to the next iteration. */
  function SendSpec(w: Wire, exchange: string, body: seq<bv8>, s: State): Step<RoundEnd>
    requires s.channel.Some?
  {
    var sent := Then(s, SendOf(s.channel.value, exchange, body));
    if w.answer(|s.log|).None? then Step(sent, Done(Published))
    else Step(Then(sent, Sleep(Second)), Retry(w.answer(|s.log|).value))
  }

  /** One iteration of Publish's loop (lines 93-121) from the state `s`.
      `encoded` is what `json.Marshal(payload)` gives, the same on every
      iteration. With `nilIsClosed` false this is the code as written, which
      probes a nil channel; with it true a nil channel counts as closed. */
  function RoundSpec(w: Wire, url: string, exchange: string, encoded: Result<seq<bv8>>, s: State, nilIsClosed: bool): (r: Step<RoundEnd>)
    ensures r.value == Done(Panicked) <==> s.channel.None? && !nilIsClosed
  {
    if s.channel.None? && !nilIsClosed then Step(s, Done(Panicked))
    else
      var p := ProbeSpec(w, url, exchange, s);
      if p.value.Some? then Step(p.state, Retry(p.value.value))
      else if encoded.Err? then Step(p.state, Done(Failed(encoded.error)))
      else SendSpec(w, exchange, encoded.value, p.state)
  }

  /** The loop of lines 92-124 from iteration `i` on, with `lastErr` so far;
      `round` is one iteration, as a function of the state it starts from. */
  function PublishLoop(round: State -> Step<RoundEnd>, s: State, i: nat, lastErr: Option<Error>): Step<PublishResult>
    requires i <= MaxRetries && (0 < i ==> lastErr.Some?)
    decreases MaxRetries - i
  {
    if i == MaxRetries then Step(s, Exhausted(lastErr.value))
    else
      var r := round(s);
      match r.value
      case Retry(e) => PublishLoop(round, r.state, i + 1, Some(e))
      case Done(result) => Step(r.state, result)
  }

  /** The iteration of Publish (RoundSpec) for fixed oracles and payload. */
  function Round(w: Wire, url: string, exchange: string, encoded: Result<seq<bv8>>, nilIsClosed: bool): State -> Step<RoundEnd>
  {
    s => RoundSpec(w, url, exchange, encoded, s, nilIsClosed)
  }

  /** `Publish` from the state `s`. */
  function PublishSpec(w: Wire, url: string, exchange: string, encoded: Result<seq<bv8>>, s: State, nilIsClosed: bool): Step<PublishResult>
  {
    PublishLoop(Round(w, url, exchange, encoded, nilIsClosed), s, 0, None)
  }

  /** The log ends with a call the broker refused with `e`: a send followed
      by its 1 s sleep, or one of connect's calls. */
  predicate EndsInFailure(w: Wire, log: seq<Effect>, e: Error)
  {
    (2 <= |log| && log[|log| - 1] == Sleep(Second) && log[|log| - 2].Send? && w.answer(|log| - 2) == Some(e)) ||
    (1 <= |log| && (log[|log| - 1].Dial? || log[|log| - 1].OpenChannel? || log[|log| - 1].Declare?) &&
     w.answer(|log| - 1) == Some(e))
  }

  /** The probe and inline reconnect: at most one probe and one dial, a dial
      exactly when the channel was found closed (or is nil), nothing sent and
      no sleep; a failed reconnect ends the log with the refused call. */
  lemma ProbeFacts(w: Wire, url: string, exchange: string, s: State)
    ensures var p := ProbeSpec(w, url, exchange, s);
      var a, b := s.log, p.state.log;
      Probes(a) <= Probes(b) <= Probes(a) + 1 && Sends(b) == Sends(a) && Sleeps(b) == Sleeps(a) &&
      Dials(b) == Dials(a) + (if s.channel.None? || w.closed(|a|) then 1 else 0) &&
      (p.value.Some? ==> EndsInFailure(w, b, p.value.value))
  {
    var s1 := if s.channel.None? then s else Then(s, Probe(s.channel.value));
    if s.channel.Some? {
      CountsSnoc(s.log, Probe(s.channel.value));
    }
    if s.channel.None? || w.closed(|s.log|) {
      ConnectCounts(w, url, exchange, s1);
      ConnectOrder(w, url, exchange, s1);
    }
  }

  /** The send: one send, no dial and no probe, and a 1 s sleep exactly
      when the broker refused it. */
  lemma SendFacts(w: Wire, exchange: string, body: seq<bv8>, s: State)
    requires s.channel.Some?
    ensures var r := SendSpec(w, exchange, body, s);
      var a, b := s.log, r.state.log;
      Sends(b) == Sends(a) + 1 && Dials(b) == Dials(a) && Probes(b) == Probes(a) &&
      Sleeps(b) == Sleeps(a) + (if r.value.Retry? then [Second] else []) &&
      r.state.channel == s.channel &&
      (r.value.Retry? ==> EndsInFailure(w, b, r.value.err)) &&
      (r.value.Done? ==> r.value == Done(Published) && b[|b| - 1] == SendOf(s.channel.value, exchange, body) &&
                         w.answer(|b| - 1).None?)
  {
    var send := SendOf(s.channel.value, exchange, body);
    CountsSnoc(s.log, send);
    CountsSnoc(s.log + [send], Sleep(Second));
  }

  /** What one iteration does: at most one probe, one inline reconnect and
      one send; a reconnect only when the channel was found closed (or is
      nil); no send when marshalling failed; a 1 s sleep after a refused send
      and after nothing else; and an iteration that goes on to the next one
      has made a dial or a send. */
  lemma RoundCounts(w: Wire, url: string, exchange: string, encoded: Result<seq<bv8>>, s: State, nilIsClosed: bool)
    ensures var r := RoundSpec(w, url, exchange, encoded, s, nilIsClosed);
      var a, b := s.log, r.state.log;
      Probes(a) <= Probes(b) <= Probes(a) + 1 && Dials(a) <= Dials(b) <= Dials(a) + 1 &&
      Sends(a) <= Sends(b) <= Sends(a) + 1 &&
      (Dials(b) == Dials(a) + 1 ==> s.channel.None? || w.closed(|a|)) &&
      (encoded.Err? ==> Sends(b) == Sends(a)) &&
      (r.value == Done(Published) ==> Sends(b) == Sends(a) + 1) &&
      (r.value.Done? && r.value != Done(Published) ==> Sends(b) == Sends(a)) &&
      Sleeps(b) == Sleeps(a) + (if r.value.Retry? && Sends(b) == Sends(a) + 1 then [Second] else []) &&
      (r.value.Retry? ==> Dials(a) + Sends(a) < Dials(b) + Sends(b))
  {
    if !(s.channel.None? && !nilIsClosed) {
      var p := ProbeSpec(w, url, exchange, s);
      ProbeFacts(w, url, exchange, s);
      if p.value.None? && encoded.Ok? {
        SendFacts(w, exchange, encoded.value, p.state);
      }
    }
  }

  /** How one iteration ends: it goes on to the next one only after a call
      the broker refused, whose error it carries; it returns a marshal error
      as it is; it returns success only right after a send of the payload
      that the broker accepted. */
  lemma RoundEnds(w: Wire, url: string, exchange: string, encoded: Result<seq<bv8>>, s: State, nilIsClosed: bool)
    ensures var r := RoundSpec(w, url, exchange, encoded, s, nilIsClosed);
      var b := r.state.log;
      (r.value.Retry? ==> EndsInFailure(w, b, r.value.err)) &&
      (r.value.Done? && r.value.result.Failed? ==> encoded.Err? && r.value.result.err == encoded.error) &&
      (r.value == Done(Published) ==>
        encoded.Ok? && r.state.channel.Some? && 0 < |b| &&
        b[|b| - 1] == SendOf(r.state.channel.value, exchange, encoded.value) && w.answer(|b| - 1).None?) &&
      (r.value.Done? ==> !r.value.result.Exhausted?)
  {
    if !(s.channel.None? && !nilIsClosed) {
      var p := ProbeSpec(w, url, exchange, s);
      ProbeFacts(w, url, exchange, s);
      if p.value.None? && encoded.Ok? {
        SendFacts(w, exchange, encoded.value, p.state);
      }
    }
  }

  /** `m` pauses of one second. */
  function Pauses(m: nat): (r: seq<nat>)
    ensures |r| == m && forall x :: x in r ==> x == Second
  {
    if m == 0 then [] else [Second] + Pauses(m - 1)
  }

  // The loop lemmas below are stated for any iteration `round` with a given
  // property, and then applied to Publish's own iteration.

  /** A count that each iteration raises by at most one is raised by at most
      one per remaining iteration. */
  lemma {:induction false} LoopCountBounded(count: seq<Effect> -> nat, round: State -> Step<RoundEnd>, s: State,
                                            i: nat, lastErr: Option<Error>)
    requires i <= MaxRetries && (0 < i ==> lastErr.Some?)
    requires forall t: State :: count(t.log) <= count(round(t).state.log) <= count(t.log) + 1
    ensures var b := PublishLoop(round, s, i, lastErr).state.log;
      count(s.log) <= count(b) <= count(s.log) + (MaxRetries - i)
    decreases MaxRetries - i
  {
    if i < MaxRetries && round(s).value.Retry? {
      LoopCountBounded(count, round, round(s).state, i + 1, Some(round(s).value.err));
    }
  }

  /** A count that no iteration changes is not changed by the loop. */
  lemma {:induction false} LoopCountKept(count: seq<Effect> -> nat, round: State -> Step<RoundEnd>, s: State,
                                         i: nat, lastErr: Option<Error>)
    requires i <= MaxRetries && (0 < i ==> lastErr.Some?)
    requires forall t: State :: count(round(t).state.log) == count(t.log)
    ensures count(PublishLoop(round, s, i, lastErr).state.log) == count(s.log)
    decreases MaxRetries - i
  {
    if i < MaxRetries && round(s).value.Retry? {
      LoopCountKept(count, round, round(s).state, i + 1, Some(round(s).value.err));
    }
  }

  /** From the log `a` to the log `b` the client slept one second after
      every send but the accepted one, if `published`, and at no other time. */
  predicate PausedPerRefusal(a: seq<Effect>, b: seq<Effect>, published: bool)
  {
    var accepted := if published then 1 else 0;
    Sends(a) + accepted <= Sends(b) && Sleeps(b) == Sleeps(a) + Pauses(Sends(b) - Sends(a) - accepted)
  }

  lemma {:induction false} PausesAdd(m: nat, n: nat)
    ensures Pauses(m) + Pauses(n) == Pauses(m + n)
  {
    if m > 0 {
      PausesAdd(m - 1, n);
    }
  }

  /** A stretch that ends in a refusal followed by one that ends anyhow. */
  lemma PausedTrans(a: seq<Effect>, b: seq<Effect>, c: seq<Effect>, published: bool)
    requires PausedPerRefusal(a, b, false) && PausedPerRefusal(b, c, published)
    ensures PausedPerRefusal(a, c, published)
  {
    var accepted := if published then 1 else 0;
    var m, n := Sends(b) - Sends(a), Sends(c) - Sends(b) - accepted;
    PausesAdd(m, n);
  }

  lemma {:induction false} LoopPauses(round: State -> Step<RoundEnd>, s: State, i: nat, lastErr: Option<Error>)
    requires i <= MaxRetries && (0 < i ==> lastErr.Some?)
    requires forall t: State :: PausedPerRefusal(t.log, round(t).state.log, round(t).value == Done(Published))
    ensures var r := PublishLoop(round, s, i, lastErr);
      PausedPerRefusal(s.log, r.state.log, r.value.Published?)
    decreases MaxRetries - i
  {
    if i < MaxRetries {
      var round1 := round(s);
      assert PausedPerRefusal(s.log, round1.state.log, round1.value == Done(Published));
      if round1.value.Retry? {
        var rest := PublishLoop(round, round1.state, i + 1, Some(round1.value.err));
        LoopPauses(round, round1.state, i + 1, Some(round1.value.err));
        PausedTrans(s.log, round1.state.log, rest.state.log, rest.value.Published?);
      }
    } else {
      assert Sleeps(s.log) + Pauses(0) == Sleeps(s.log);
    }
  }

  lemma {:induction false} LoopGivesUpLate(round: State -> Step<RoundEnd>, s: State, i: nat, lastErr: Option<Error>)
    requires i <= MaxRetries && (0 < i ==> lastErr.Some?)
    requires forall t :: round(t).value.Done? ==> !round(t).value.result.Exhausted?
    requires forall t :: round(t).value.Retry? ==>
      Dials(t.log) + Sends(t.log) < Dials(round(t).state.log) + Sends(round(t).state.log)
    ensures var r := PublishLoop(round, s, i, lastErr);
      r.value.Exhausted? ==> Dials(s.log) + Sends(s.log) + (MaxRetries - i) <= Dials(r.state.log) + Sends(r.state.log)
    decreases MaxRetries - i
  {
    if i < MaxRetries && round(s).value.Retry? {
      LoopGivesUpLate(round, round(s).state, i + 1, Some(round(s).value.err));
    }
  }

  /** The state `st` ends with a send of `encoded` on the channel it holds,
      which the broker accepted. */
  predicate AcceptedSendLast(w: Wire, exchange: string, encoded: Result<seq<bv8>>, st: State)
  {
    encoded.Ok? && st.channel.Some? && 0 < |st.log| &&
    st.log[|st.log| - 1] == SendOf(st.channel.value, exchange, encoded.value) && w.answer(|st.log| - 1).None?
  }

  lemma {:induction false} LoopSucceeds(w: Wire, exchange: string, encoded: Result<seq<bv8>>,
                                        round: State -> Step<RoundEnd>, s: State, i: nat, lastErr: Option<Error>)
    requires i <= MaxRetries && (0 < i ==> lastErr.Some?)
    requires forall t :: round(t).value == Done(Published) ==> AcceptedSendLast(w, exchange, encoded, round(t).state)
    ensures var r := PublishLoop(round, s, i, lastErr);
      r.value.Published? ==> AcceptedSendLast(w, exchange, encoded, r.state)
    decreases MaxRetries - i
  {
    if i < MaxRetries && round(s).value.Retry? {
      LoopSucceeds(w, exchange, encoded, round, round(s).state, i + 1, Some(round(s).value.err));
    }
  }

  lemma {:induction false} LoopFails(encoded: Result<seq<bv8>>, round: State -> Step<RoundEnd>, s: State,
                                     i: nat, lastErr: Option<Error>)
    requires i <= MaxRetries && (0 < i ==> lastErr.Some?)
    requires forall t :: round(t).value.Done? && round(t).value.result.Failed? ==>
      encoded.Err? && round(t).value.result.err == encoded.error
    ensures var r := PublishLoop(round, s, i, lastErr);
      r.value.Failed? ==> encoded.Err? && r.value.err == encoded.error
    decreases MaxRetries - i
  {
    if i < MaxRetries && round(s).value.Retry? {
      LoopFails(encoded, round, round(s).state, i + 1, Some(round(s).value.err));
    }
  }

  lemma {:induction false} LoopExhausted(w: Wire, round: State -> Step<RoundEnd>, s: State, i: nat, lastErr: Option<Error>)
    requires i <= MaxRetries && (0 < i ==> lastErr.Some? && EndsInFailure(w, s.log, lastErr.value))
    requires forall t :: round(t).value.Done? ==> !round(t).value.result.Exhausted?
    requires forall t :: round(t).value.Retry? ==> EndsInFailure(w, round(t).state.log, round(t).value.err)
    ensures var r := PublishLoop(round, s, i, lastErr);
      r.value.Exhausted? ==> EndsInFailure(w, r.state.log, r.value.last)
    decreases MaxRetries - i
  {
    if i < MaxRetries && round(s).value.Retry? {
      LoopExhausted(w, round, round(s).state, i + 1, Some(round(s).value.err));
    }
  }

  lemma {:induction false} LoopNeverPanics(round: State -> Step<RoundEnd>, s: State, i: nat, lastErr: Option<Error>)
    requires i <= MaxRetries && (0 < i ==> lastErr.Some?)
    requires forall t :: round(t).value != Done(Panicked)
    ensures PublishLoop(round, s, i, lastErr).value != Panicked
    decreases MaxRetries - i
  {
    if i < MaxRetries && round(s).value.Retry? {
      LoopNeverPanics(round, round(s).state, i + 1, Some(round(s).value.err));
    }
  }

  /** Publish probes the channel, reconnects inline and sends at most once
      per iteration, so each at most three times, and sends nothing at all
      when marshalling fails. */
  lemma PublishCallsBounded(w: Wire, url: string, exchange: string, encoded: Result<seq<bv8>>, s: State, nilIsClosed: bool)
    ensures var a, b := s.log, PublishSpec(w, url, exchange, encoded, s, nilIsClosed).state.log;
      Probes(a) <= Probes(b) <= Probes(a) + MaxRetries &&
      Dials(a) <= Dials(b) <= Dials(a) + MaxRetries &&
      Sends(a) <= Sends(b) <= Sends(a) + (if encoded.Err? then 0 else MaxRetries)
  {
    var round := Round(w, url, exchange, encoded, nilIsClosed);
    forall t ensures var b := round(t).state.log;
      Probes(t.log) <= Probes(b) <= Probes(t.log) + 1 && Dials(t.log) <= Dials(b) <= Dials(t.log) + 1 &&
      Sends(t.log) <= Sends(b) <= Sends(t.log) + 1 && (encoded.Err? ==> Sends(b) == Sends(t.log))
    {
      RoundCounts(w, url, exchange, encoded, t, nilIsClosed);
    }
    LoopCountBounded(Probes, round, s, 0, None);
    LoopCountBounded(Dials, round, s, 0, None);
    if encoded.Err? {
      LoopCountKept(Sends, round, s, 0, None);
    } else {
      LoopCountBounded(Sends, round, s, 0, None);
    }
  }

  /** Publish sleeps one second after every refused send and at no other
      time: the only send that is not followed by a pause is the accepted
      one that ends a successful run. */
  lemma PublishPauses(w: Wire, url: string, exchange: string, encoded: Result<seq<bv8>>, s: State, nilIsClosed: bool)
    ensures var r := PublishSpec(w, url, exchange, encoded, s, nilIsClosed);
      PausedPerRefusal(s.log, r.state.log, r.value.Published?)
  {
    var round := Round(w, url, exchange, encoded, nilIsClosed);
    forall t: State ensures PausedPerRefusal(t.log, round(t).state.log, round(t).value == Done(Published)) {
      RoundCounts(w, url, exchange, encoded, t, nilIsClosed);
      assert Pauses(1) == [Second];
      assert Sleeps(t.log) + Pauses(0) == Sleeps(t.log);
    }
    LoopPauses(round, s, 0, None);
  }

  /** Where sends and pauses fall from the log `a` to the log `b`: a send the
      broker accepted is only ever the last call, of a run that `published`;
      every refused send is followed at once by a 1 s sleep; and every sleep
      comes right after a refused send. */
  predicate SendsInPlace(w: Wire, a: seq<Effect>, b: seq<Effect>, published: bool)
  {
    |a| <= |b| && b[..|a|] == a &&
    (forall j :: |a| <= j < |b| && b[j].Send? && w.answer(j).None? ==> published && j == |b| - 1) &&
    (forall j :: |a| <= j < |b| && b[j].Send? && w.answer(j).Some? ==> j + 1 < |b| && b[j + 1] == Sleep(Second)) &&
    (forall j :: |a| <= j < |b| && b[j].Sleep? ==> |a| < j && b[j - 1].Send? && w.answer(j - 1).Some? && b[j] == Sleep(Second))
  }

  lemma SendsInPlaceTrans(w: Wire, a: seq<Effect>, b: seq<Effect>, c: seq<Effect>, published: bool)
    requires SendsInPlace(w, a, b, false) && SendsInPlace(w, b, c, published)
    ensures SendsInPlace(w, a, c, published)
  {
    assert c[..|b|] == b;
    forall j | |a| <= j < |b| ensures c[j] == b[j] {
      assert c[..|b|][j] == c[j];
    }
    assert c[..|a|] == b[..|a|];
  }

  /** The probe and the inline reconnect neither send nor sleep. */
  lemma ProbeInPlace(w: Wire, url: string, exchange: string, s: State)
    ensures SendsInPlace(w, s.log, ProbeSpec(w, url, exchange, s).state.log, false)
  {
    var s1 := if s.channel.None? then s else Then(s, Probe(s.channel.value));
    if s.channel.None? || w.closed(|s.log|) {
      ConnectOrder(w, url, exchange, s1);
      var b := ConnectSpec(w, url, exchange, s1).state.log;
      forall j | |s.log| <= j < |b| ensures !b[j].Send? && !b[j].Sleep? {
        if j >= |s1.log| {
          assert b[j] == ConnectCalls(|s1.log|, url, exchange)[j - |s1.log|];
        }
      }
    }
  }

  lemma SendInPlace(w: Wire, exchange: string, body: seq<bv8>, s: State)
    requires s.channel.Some?
    ensures var r := SendSpec(w, exchange, body, s);
      SendsInPlace(w, s.log, r.state.log, r.value == Done(Published))
  {
  }

  /** One iteration keeps sends and pauses in place. */
  lemma RoundInPlace(w: Wire, url: string, exchange: string, encoded: Result<seq<bv8>>, s: State, nilIsClosed: bool)
    ensures var r := RoundSpec(w, url, exchange, encoded, s, nilIsClosed);
      SendsInPlace(w, s.log, r.state.log, r.value == Done(Published))
  {
    if !(s.channel.None? && !nilIsClosed) {
      var p := ProbeSpec(w, url, exchange, s);
      ProbeInPlace(w, url, exchange, s);
      if p.value.None? && encoded.Ok? {
        var r := SendSpec(w, exchange, encoded.value, p.state);
        SendInPlace(w, exchange, encoded.value, p.state);
        SendsInPlaceTrans(w, s.log, p.state.log, r.state.log, r.value == Done(Published));
      }
    }
  }

  lemma {:induction false} LoopInPlace(w: Wire, round: State -> Step<RoundEnd>, s: State, i: nat, lastErr: Option<Error>)
    requires i <= MaxRetries && (0 < i ==> lastErr.Some?)
    requires forall t: State :: SendsInPlace(w, t.log, round(t).state.log, round(t).value == Done(Published))
    ensures var r := PublishLoop(round, s, i, lastErr);
      SendsInPlace(w, s.log, r.state.log, r.value.Published?)
    decreases MaxRetries - i
  {
    if i < MaxRetries {
      var r := round(s);
      assert SendsInPlace(w, s.log, r.state.log, r.value == Done(Published));
      if r.value.Retry? {
        var e := PublishLoop(round, r.state, i + 1, Some(r.value.err));
        LoopInPlace(w, round, r.state, i + 1, Some(r.value.err));
        SendsInPlaceTrans(w, s.log, r.state.log, e.state.log, e.value.Published?);
      }
    } else {
      assert s.log[..|s.log|] == s.log;
    }
  }

  /** Publish returns at its first accepted send, and every pause it makes
      follows a refused send at once. */
  lemma PublishStopsAtFirstAcceptedSend(w: Wire, url: string, exchange: string, encoded: Result<seq<bv8>>, s: State,
                                        nilIsClosed: bool)
    ensures var r := PublishSpec(w, url, exchange, encoded, s, nilIsClosed);
      SendsInPlace(w, s.log, r.state.log, r.value.Published?)
  {
    var round := Round(w, url, exchange, encoded, nilIsClosed);
    forall t: State ensures SendsInPlace(w, t.log, round(t).state.log, round(t).value == Done(Published)) {
      RoundInPlace(w, url, exchange, encoded, t, nilIsClosed);
    }
    LoopInPlace(w, round, s, 0, None);
  }

  /** Publish gives up only after three iterations that each made an
      attempt, a dial or a send. */
  lemma PublishGivesUpLate(w: Wire, url: string, exchange: string, encoded: Result<seq<bv8>>, s: State, nilIsClosed: bool)
    ensures var r := PublishSpec(w, url, exchange, encoded, s, nilIsClosed);
      r.value.Exhausted? ==> Dials(s.log) + Sends(s.log) + MaxRetries <= Dials(r.state.log) + Sends(r.state.log)
  {
    var round := Round(w, url, exchange, encoded, nilIsClosed);
    forall t ensures (round(t).value.Done? ==> !round(t).value.result.Exhausted?) &&
      (round(t).value.Retry? ==> Dials(t.log) + Sends(t.log) < Dials(round(t).state.log) + Sends(round(t).state.log))
    {
      RoundCounts(w, url, exchange, encoded, t, nilIsClosed);
      RoundEnds(w, url, exchange, encoded, t, nilIsClosed);
    }
    LoopGivesUpLate(round, s, 0, None);
  }

  /** Publish returns nil only right after a send of the marshalled payload
      that the broker accepted, on the channel the client holds afterwards;
      nothing is sent after it. */
  lemma PublishSucceedsOnlyAfterAcceptedSend(w: Wire, url: string, exchange: string, encoded: Result<seq<bv8>>, s: State,
                                             nilIsClosed: bool)
    ensures var r := PublishSpec(w, url, exchange, encoded, s, nilIsClosed);
      r.value.Published? ==> AcceptedSendLast(w, exchange, encoded, r.state)
  {
    var round := Round(w, url, exchange, encoded, nilIsClosed);
    forall t ensures round(t).value == Done(Published) ==> AcceptedSendLast(w, exchange, encoded, round(t).state) {
      RoundEnds(w, url, exchange, encoded, t, nilIsClosed);
    }
    LoopSucceeds(w, exchange, encoded, round, s, 0, None);
  }

  /** A marshal error is the only error Publish returns as it is. */
  lemma PublishFailsOnlyOnMarshal(w: Wire, url: string, exchange: string, encoded: Result<seq<bv8>>, s: State, nilIsClosed: bool)
    ensures var r := PublishSpec(w, url, exchange, encoded, s, nilIsClosed);
      r.value.Failed? ==> encoded.Err? && r.value.err == encoded.error
  {
    var round := Round(w, url, exchange, encoded, nilIsClosed);
    forall t ensures round(t).value.Done? && round(t).value.result.Failed? ==>
      encoded.Err? && round(t).value.result.err == encoded.error
    {
      RoundEnds(w, url, exchange, encoded, t, nilIsClosed);
    }
    LoopFails(encoded, round, s, 0, None);
  }

  /** When Publish gives up, the error it wraps is that of the last call the
      broker refused: a send, or a call of the inline reconnect. */
  lemma PublishExhaustedCarriesLastError(w: Wire, url: string, exchange: string, encoded: Result<seq<bv8>>, s: State,
                                         nilIsClosed: bool)
    ensures var r := PublishSpec(w, url, exchange, encoded, s, nilIsClosed);
      r.value.Exhausted? ==> EndsInFailure(w, r.state.log, r.value.last)
  {
    var round := Round(w, url, exchange, encoded, nilIsClosed);
    forall t ensures (round(t).value.Done? ==> !round(t).value.result.Exhausted?) &&
      (round(t).value.Retry? ==> EndsInFailure(w, round(t).state.log, round(t).value.err))
    {
      RoundEnds(w, url, exchange, encoded, t, nilIsClosed);
    }
    LoopExhausted(w, round, s, 0, None);
  }

  /** What Publish returns, as Go's `error`: nil only after an accepted send of
      the payload (lines 117-119), the marshal error as it is (line 102), and
      after three failed iterations the retry message wrapping the error of the
      last call the broker refused (line 124). */
  lemma PublishReturns(w: Wire, url: string, exchange: string, encoded: Result<seq<bv8>>, s: State, nilIsClosed: bool)
    ensures var r := PublishSpec(w, url, exchange, encoded, s, nilIsClosed);
      r.value != Panicked ==>
        (r.value.GoError().None? <==> AcceptedSendLast(w, exchange, encoded, r.state)) &&
        (r.value.Failed? ==> encoded.Err? && r.value.GoError() == Some(encoded.error)) &&
        (r.value.Exhausted? ==>
          r.value.GoError() == Some(Error(ExhaustedPrefix + r.value.last.text)) &&
          EndsInFailure(w, r.state.log, r.value.last))
  {
    PublishSucceedsOnlyAfterAcceptedSend(w, url, exchange, encoded, s, nilIsClosed);
    PublishFailsOnlyOnMarshal(w, url, exchange, encoded, s, nilIsClosed);
    PublishExhaustedCarriesLastError(w, url, exchange, encoded, s, nilIsClosed);
  }

  // ---------------------------------------------------------------------
  // The nil channel left by a failed inline reconnect
  // ---------------------------------------------------------------------

  /** As written, Publish can panic: when the channel is found closed and the
      inline reconnect dials but fails to open a channel, `c.channel` becomes
      nil and the next iteration calls `IsClosed` on it. */
  lemma PublishAsWrittenCanPanic()
    ensures var url, exchange := "amqp://broker", "sensor_exchange";
      var w := Wire(n => if n == 5 then Some(Error("channel refused")) else None, n => true);
      var s := State(Some(Handle(0)), Some(Handle(1)), ConnectCalls(0, url, exchange));
      PublishSpec(w, url, exchange, Ok([]), s, false).value == Panicked
  {
    var url, exchange := "amqp://broker", "sensor_exchange";
    var w := Wire(n => if n == 5 then Some(Error("channel refused")) else None, n => true);
    var s := State(Some(Handle(0)), Some(Handle(1)), ConnectCalls(0, url, exchange));
    var round := RoundSpec(w, url, exchange, Ok([]), s, false);
    assert |Then(s, Probe(Handle(1))).log| == 4;
    assert round.state.channel == None;
    assert round.value == Retry(Error("channel refused"));
    assert RoundSpec(w, url, exchange, Ok([]), round.state, false).value == Done(Panicked);
  }

  /** With a nil channel treated as closed, Publish never panics. */
  lemma NilSafePublishNeverPanics(w: Wire, url: string, exchange: string, encoded: Result<seq<bv8>>, s: State)
    ensures PublishSpec(w, url, exchange, encoded, s, true).value != Panicked
  {
    LoopNeverPanics(Round(w, url, exchange, encoded, true), s, 0, None);
  }

  // ---------------------------------------------------------------------
  // handleReconnect (lines 62-85)
  // ---------------------------------------------------------------------

  /** Lines 78-81: `retryWait *= 2`, then capped at 30 s. */
  function NextWait(d: nat): nat
  {
    if 2 * d > MaxReconnectWait then MaxReconnectWait else 2 * d
  }

  /** The reconnect backoff as a closed form: min(2^k s, 30 s) before attempt k,
      that is 1, 2, 4, 8, 16, 30, 30, ... seconds. */
  function WaitBefore(k: nat): nat
  {
    if Pow2(k) * Second < MaxReconnectWait then Pow2(k) * Second else MaxReconnectWait
  }

  /** The m waits of that backoff from attempt k on. */
  function Waits(k: nat, m: nat): (r: seq<nat>)
    ensures |r| == m
    decreases m
  {
    if m == 0 then [] else [WaitBefore(k)] + Waits(k + 1, m - 1)
  }

  /** The inner loop of lines 69-83 from the state `s` with the wait `wait`,
      observed for at most `attempts` attempts (the code itself has no bound);
      `connect` is connect as a function of the state it starts from. Its
      value says whether a connect succeeded. */
  function ReconnectLoop(connect: State -> Step<Option<Error>>, s: State, wait: nat, attempts: nat): Step<bool>
    decreases attempts
  {
    if attempts == 0 then Step(s, false)
    else
      var c := connect(Then(s, Sleep(wait)));
      if c.value.None? then Step(c.state, true)
      else ReconnectLoop(connect, c.state, NextWait(wait), attempts - 1)
  }

  /** connect (ConnectSpec) for fixed oracles, URL and exchange. */
  function Connector(w: Wire, url: string, exchange: string): State -> Step<Option<Error>>
  {
    s => ConnectSpec(w, url, exchange, s)
  }

  lemma NextWaitDoubles(k: nat)
    ensures NextWait(WaitBefore(k)) == WaitBefore(k + 1)
  {
    assert Pow2(k + 1) * Second == 2 * (Pow2(k) * Second);
  }

  /** A connect from `t` to `c` dials once, neither sends, probes nor sleeps,
      and when it succeeds ends with a declare the broker accepted. */
  predicate AttemptCounts(w: Wire, t: State, c: Step<Option<Error>>)
  {
    var a, b := t.log, c.state.log;
    Dials(b) == Dials(a) + 1 && Sends(b) == Sends(a) && Probes(b) == Probes(a) && Sleeps(b) == Sleeps(a) &&
    (c.value.None? ==> 0 < |b| && b[|b| - 1].Declare? && w.answer(|b| - 1).None?)
  }

  lemma {:induction false} LoopAttempts(w: Wire, connect: State -> Step<Option<Error>>, s: State, wait: nat, attempts: nat)
    requires forall t :: AttemptCounts(w, t, connect(t))
    ensures var r := ReconnectLoop(connect, s, wait, attempts);
      var a, b := s.log, r.state.log;
      Dials(a) <= Dials(b) <= Dials(a) + attempts && (!r.value ==> Dials(b) == Dials(a) + attempts) &&
      Sends(b) == Sends(a) && Probes(b) == Probes(a) &&
      (r.value ==> 0 < |b| && b[|b| - 1].Declare? && w.answer(|b| - 1).None?)
    decreases attempts
  {
    if attempts > 0 {
      var slept := Then(s, Sleep(wait));
      var c := connect(slept);
      CountsSnoc(s.log, Sleep(wait));
      assert AttemptCounts(w, slept, c);
      if c.value.Some? {
        LoopAttempts(w, connect, c.state, NextWait(wait), attempts - 1);
      }
    }
  }

  /** From the log `a` to the log `b` the client slept the waits of the
      backoff from attempt k on, one per dial. */
  predicate OnSchedule(a: seq<Effect>, b: seq<Effect>, k: nat)
  {
    Dials(a) <= Dials(b) && Sleeps(b) == Sleeps(a) + Waits(k, Dials(b) - Dials(a))
  }

  lemma ScheduleTrans(a: seq<Effect>, b: seq<Effect>, c: seq<Effect>, k: nat)
    requires Dials(b) == Dials(a) + 1 && Sleeps(b) == Sleeps(a) + [WaitBefore(k)] && OnSchedule(b, c, k + 1)
    ensures OnSchedule(a, c, k)
  {
  }

  lemma {:induction false} LoopSchedule(w: Wire, connect: State -> Step<Option<Error>>, s: State, k: nat, attempts: nat)
    requires forall t :: AttemptCounts(w, t, connect(t))
    ensures OnSchedule(s.log, ReconnectLoop(connect, s, WaitBefore(k), attempts).state.log, k)
    decreases attempts
  {
    if attempts > 0 {
      var slept := Then(s, Sleep(WaitBefore(k)));
      var c := connect(slept);
      CountsSnoc(s.log, Sleep(WaitBefore(k)));
      assert AttemptCounts(w, slept, c);
      if c.value.Some? {
        NextWaitDoubles(k);
        var rest := ReconnectLoop(connect, c.state, WaitBefore(k + 1), attempts - 1);
        LoopSchedule(w, connect, c.state, k + 1, attempts - 1);
        ScheduleTrans(s.log, c.state.log, rest.state.log, k);
      } else {
        assert Waits(k, 1) == [WaitBefore(k)];
      }
    } else {
      assert Sleeps(s.log) + Waits(k, 0) == Sleeps(s.log);
    }
  }

  /** handleReconnect sleeps before every connect attempt, the sleeps follow
      the schedule 1, 2, 4, 8, 16, 30, 30, ... seconds from attempt k on, it
      keeps trying until a connect succeeds, and it stops at the first that
      does, whose declare is the last thing it does. */
  lemma ReconnectFollowsSchedule(w: Wire, url: string, exchange: string, s: State, k: nat, attempts: nat)
    ensures var r := ReconnectLoop(Connector(w, url, exchange), s, WaitBefore(k), attempts);
      var a, b := s.log, r.state.log;
      Dials(a) <= Dials(b) <= Dials(a) + attempts && (!r.value ==> Dials(b) == Dials(a) + attempts) &&
      Sleeps(b) == Sleeps(a) + Waits(k, Dials(b) - Dials(a)) &&
      Sends(b) == Sends(a) && Probes(b) == Probes(a) &&
      (r.value ==> 0 < |b| && b[|b| - 1].Declare? && w.answer(|b| - 1).None?) &&
      StopsAtFirstSuccess(w, a, b, r.value)
  {
    var connect := Connector(w, url, exchange);
    forall t ensures AttemptCounts(w, t, connect(t)) {
      ConnectCounts(w, url, exchange, t);
      ConnectOrder(w, url, exchange, t);
    }
    forall t ensures AcceptsOnlyLast(w, t, connect(t)) {
      ConnectAcceptsOnlyLast(w, url, exchange, t);
    }
    LoopAttempts(w, connect, s, WaitBefore(k), attempts);
    LoopSchedule(w, connect, s, k, attempts);
    LoopStopsAtFirstSuccess(w, connect, s, WaitBefore(k), attempts);
  }

  /** A connect from `t` to `c` keeps the log it found, and its first call,
      and only that one, is a dial. */
  predicate DialsFirst(t: State, c: Step<Option<Error>>)
  {
    var a, b := t.log, c.state.log;
    |a| < |b| && b[..|a|] == a && b[|a|].Dial? && forall j :: |a| < j < |b| ==> !b[j].Dial?
  }

  lemma {:induction false} LoopSleepsBeforeDial(connect: State -> Step<Option<Error>>, s: State, wait: nat, attempts: nat)
    requires forall t :: DialsFirst(t, connect(t))
    ensures var b := ReconnectLoop(connect, s, wait, attempts).state.log;
      |s.log| <= |b| && b[..|s.log|] == s.log &&
      forall j :: |s.log| <= j < |b| && b[j].Dial? ==> |s.log| < j && b[j - 1].Sleep?
    decreases attempts
  {
    if attempts > 0 {
      var slept := Then(s, Sleep(wait));
      var c := connect(slept);
      assert DialsFirst(slept, c);
      assert c.state.log[|s.log|] == slept.log[|s.log|];
      if c.value.Some? {
        var b := ReconnectLoop(connect, c.state, NextWait(wait), attempts - 1).state.log;
        LoopSleepsBeforeDial(connect, c.state, NextWait(wait), attempts - 1);
        assert b[..|s.log|] == c.state.log[..|s.log|] by {
          assert b[..|c.state.log|] == c.state.log;
        }
        forall j | |s.log| <= j < |c.state.log| ensures b[j] == c.state.log[j] {
          assert b[..|c.state.log|][j] == c.state.log[j];
        }
      }
    }
  }

  /** Every dial handleReconnect makes comes right after a sleep. */
  lemma ReconnectSleepsBeforeDial(w: Wire, url: string, exchange: string, s: State, wait: nat, attempts: nat)
    ensures var b := ReconnectLoop(Connector(w, url, exchange), s, wait, attempts).state.log;
      |s.log| <= |b| && b[..|s.log|] == s.log &&
      forall j :: |s.log| <= j < |b| && b[j].Dial? ==> |s.log| < j && b[j - 1].Sleep?
  {
    var connect := Connector(w, url, exchange);
    forall t ensures DialsFirst(t, connect(t)) {
      ConnectOrder(w, url, exchange, t);
    }
    LoopSleepsBeforeDial(connect, s, wait, attempts);
  }

  /** A connect from `t` to `c` keeps the log it found, and a declare the
      broker accepted can only be its last call, on a connect that succeeded. */
  predicate AcceptsOnlyLast(w: Wire, t: State, c: Step<Option<Error>>)
  {
    var a, b := t.log, c.state.log;
    |a| <= |b| && b[..|a|] == a &&
    forall j :: |a| <= j < |b| && b[j].Declare? && w.answer(j).None? ==> c.value.None? && j == |b| - 1
  }

  /** From the log `a` to the log `b`, a declare the broker accepted is only
      ever the last call, made by a run that `reconnected`. */
  predicate StopsAtFirstSuccess(w: Wire, a: seq<Effect>, b: seq<Effect>, reconnected: bool)
  {
    forall j :: |a| <= j < |b| && b[j].Declare? && w.answer(j).None? ==> reconnected && j == |b| - 1
  }

  lemma ConnectAcceptsOnlyLast(w: Wire, url: string, exchange: string, t: State)
    ensures AcceptsOnlyLast(w, t, ConnectSpec(w, url, exchange, t))
  {
    ConnectOrder(w, url, exchange, t);
  }

  lemma {:induction false} LoopStopsAtFirstSuccess(w: Wire, connect: State -> Step<Option<Error>>, s: State,
                                                   wait: nat, attempts: nat)
    requires forall t :: AcceptsOnlyLast(w, t, connect(t))
    ensures var r := ReconnectLoop(connect, s, wait, attempts);
      var a, b := s.log, r.state.log;
      |a| <= |b| && b[..|a|] == a && StopsAtFirstSuccess(w, a, b, r.value)
    decreases attempts
  {
    if attempts > 0 {
      var slept := Then(s, Sleep(wait));
      var c := connect(slept);
      assert AcceptsOnlyLast(w, slept, c);
      assert c.state.log[|s.log|] == slept.log[|s.log|];
      if c.value.Some? {
        var b := ReconnectLoop(connect, c.state, NextWait(wait), attempts - 1).state.log;
        LoopStopsAtFirstSuccess(w, connect, c.state, NextWait(wait), attempts - 1);
        assert b[..|s.log|] == c.state.log[..|s.log|] by {
          assert b[..|c.state.log|] == c.state.log;
        }
        forall j | |s.log| <= j < |c.state.log| ensures b[j] == c.state.log[j] {
          assert b[..|c.state.log|][j] == c.state.log[j];
        }
      }
    }
  }

  /** The wait starts at 1 s, never decreases and never exceeds 30 s; from
      the sixth attempt on it stays at 30 s. */
  lemma WaitBounds(k: nat)
    ensures WaitBefore(0) == Second
    ensures Second <= WaitBefore(k) <= WaitBefore(k + 1) <= MaxReconnectWait
    ensures 5 <= k ==> WaitBefore(k) == MaxReconnectWait
  {
    Pow2Grows(k);
    assert Pow2(k + 1) * Second == 2 * (Pow2(k) * Second);
    if 5 <= k {
      Pow2AtLeast(5, k);
    }
  }

  // ---------------------------------------------------------------------
  // The objects
  // ---------------------------------------------------------------------

  /** The AMQP library, the broker and the clock, as the client sees them. */
  class Transport {
    var log: seq<Effect>
    const answer: nat -> Option<Error>
    const closed: nat -> bool

    constructor (answer: nat -> Option<Error>, closed: nat -> bool)
      ensures log == []
      ensures forall n :: this.answer(n) == answer(n)
      ensures forall n :: this.closed(n) == closed(n)
    {
      log := [];
      this.answer := answer;
      this.closed := closed;
    }

    function WireOf(): Wire
    {
      Wire(answer, closed)
    }

    /** `amqp091.Dial(url)`: a new connection, or nil and an error. */
    method Dial(url: string) returns (conn: Option<Handle>, err: Option<Error>)
      modifies this
      ensures log == old(log) + [Effect.Dial(url)] && err == answer(|old(log)|)
      ensures conn == if err.None? then Some(Handle(|old(log)|)) else None
    {
      err := answer(|log|);
      conn := if err.None? then Some(Handle(|log|)) else None;
      log := log + [Effect.Dial(url)];
    }

    /** `conn.Channel()`: a new channel, or nil and an error. */
    method Channel(conn: Handle) returns (channel: Option<Handle>, err: Option<Error>)
      modifies this
      ensures log == old(log) + [OpenChannel(conn)] && err == answer(|old(log)|)
      ensures channel == if err.None? then Some(Handle(|old(log)|)) else None
    {
      err := answer(|log|);
      channel := if err.None? then Some(Handle(|log|)) else None;
      log := log + [OpenChannel(conn)];
    }

    method ExchangeDeclare(channel: Handle, decl: ExchangeDecl) returns (err: Option<Error>)
      modifies this
      ensures log == old(log) + [Declare(channel, decl)] && err == answer(|old(log)|)
    {
      err := answer(|log|);
      log := log + [Declare(channel, decl)];
    }

    method IsClosed(channel: Handle) returns (isClosed: bool)
      modifies this
      ensures log == old(log) + [Probe(channel)] && isClosed == closed(|old(log)|)
    {
      isClosed := closed(|log|);
      log := log + [Probe(channel)];
    }

    method Publish(channel: Handle, exchange: string, key: string, mandatory: bool, immediate: bool, msg: Publishing)
      returns (err: Option<Error>)
      modifies this
      ensures log == old(log) + [Send(channel, exchange, key, mandatory, immediate, msg)] && err == answer(|old(log)|)
    {
      err := answer(|log|);
      log := log + [Send(channel, exchange, key, mandatory, immediate, msg)];
    }

    /** `time.Sleep(d)`, recorded rather than waited. */
    method Sleep(d: nat)
      modifies this
      ensures log == old(log) + [Effect.Sleep(d)]
    {
      log := log + [Effect.Sleep(d)];
    }

    /** `channel.Close()`; its error is ignored by the caller. */
    method CloseChannel(channel: Handle)
      modifies this
      ensures log == old(log) + [Effect.CloseChannel(channel)]
    {
      log := log + [Effect.CloseChannel(channel)];
    }

    /** `conn.Close()`; its error is ignored by the caller. */
    method CloseConnection(conn: Handle)
      modifies this
      ensures log == old(log) + [Effect.CloseConnection(conn)]
    {
      log := log + [Effect.CloseConnection(conn)];
    }

    /** `<-conn.NotifyClose(...)`: wait until the broker drops the connection. */
    method NotifyClose(conn: Handle)
      modifies this
      ensures log == old(log) + [AwaitClose(conn)]
    {
      log := log + [AwaitClose(conn)];
    }
  }

  /** `RabbitMQClient`, lines 16-21. */
  class Client {
    var conn: Option<Handle>
    var channel: Option<Handle>
    const exchangeName: string
    const url: string
    const transport: Transport

    /** The struct literal of lines 25-28. */
    constructor (url: string, exchange: string, transport: Transport)
      ensures conn == None && channel == None
      ensures this.url == url && exchangeName == exchange && this.transport == transport
    {
      conn := None;
      channel := None;
      this.url := url;
      exchangeName := exchange;
      this.transport := transport;
    }

    function Snapshot(): State
      reads this, transport
    {
      State(conn, channel, transport.log)
    }

    /** `connect`, lines 39-60. */
    method Connect() returns (err: Option<Error>)
      modifies this, transport
      ensures var r := ConnectSpec(transport.WireOf(), url, exchangeName, old(Snapshot()));
        Snapshot() == r.state && err == r.value
    {
      var dialErr;
      conn, dialErr := transport.Dial(url);
      if dialErr.Some? {
        return dialErr;
      }
      channel, err := transport.Channel(conn.value);
      if err.Some? {
        return err;
      }
      err := transport.ExchangeDeclare(channel.value, FanoutDecl(exchangeName));
    }

    /** Lines 93-98: probe the channel and reconnect when it is closed; a
        nil channel is reconnected without a probe. */
    method ProbeAndReconnect() returns (err: Option<Error>)
      modifies this, transport
      ensures var r := ProbeSpec(transport.WireOf(), url, exchangeName, old(Snapshot()));
        Snapshot() == r.state && err == r.value
    {
      var isClosed := true;
      if channel.Some? {
        isClosed := transport.IsClosed(channel.value);
      }
      err := None;
      if isClosed {
        err := Connect();
      }
    }

    /** Lines 105-121: one send, and the 1 s pause after a refused one. */
    method SendOnce(body: seq<bv8>) returns (end: RoundEnd)
      requires channel.Some?
      modifies transport
      ensures var r := SendSpec(transport.WireOf(), exchangeName, body, old(Snapshot()));
        Snapshot() == r.state && end == r.value
    {
      var err := transport.Publish(channel.value, exchangeName, "", false, false, Publishing(ContentType, body));
      if err.None? {
        return Done(Published);
      }
      transport.Sleep(Second);
      return Retry(err.value);
    }

    /** One iteration of Publish's loop, lines 93-121. With `nilIsClosed`
        false it is the code as written and probes a nil channel, which
        panics; with it true a nil channel is reconnected like a closed one. */
    method PublishOnce(encoded: Result<seq<bv8>>, nilIsClosed: bool) returns (end: RoundEnd)
      modifies this, transport
      ensures var r := RoundSpec(transport.WireOf(), url, exchangeName, encoded, old(Snapshot()), nilIsClosed);
        Snapshot() == r.state && end == r.value
    {
      if channel.None? && !nilIsClosed {
        return Done(Panicked);
      }
      var err := ProbeAndReconnect();
      if err.Some? {
        return Retry(err.value);
      }
      if encoded.Err? {
        return Done(Failed(encoded.error));
      }
      end := SendOnce(encoded.value);
    }

    /** The retry loop of lines 89-124 around PublishOnce. */
    method PublishLoopWith(encoded: Result<seq<bv8>>, nilIsClosed: bool) returns (result: PublishResult)
      modifies this, transport
      ensures var r := PublishSpec(transport.WireOf(), url, exchangeName, encoded, old(Snapshot()), nilIsClosed);
        Snapshot() == r.state && result == r.value
    {
      var lastErr: Option<Error> := None;
      var i := 0;
      ghost var w := transport.WireOf();
      ghost var round := Round(w, url, exchangeName, encoded, nilIsClosed);
      ghost var whole := PublishLoop(round, Snapshot(), 0, None);
      while i < MaxRetries
        invariant i <= MaxRetries && (0 < i ==> lastErr.Some?)
        invariant whole == PublishLoop(round, Snapshot(), i, lastErr)
      {
        ghost var before := Snapshot();
        var end := PublishOnce(encoded, nilIsClosed);
        assert round(before) == Step(Snapshot(), end);
        if end.Done? {
          return end.result;
        }
        lastErr := Some(end.err);
        i := i + 1;
      }
      return Exhausted(lastErr.value);
    }

    /** `Publish`, lines 88-125, as written. `encoded` is the outcome of
        `json.Marshal(payload)`. */
    method Publish(encoded: Result<seq<bv8>>) returns (result: PublishResult)
      modifies this, transport
      ensures var r := PublishSpec(transport.WireOf(), url, exchangeName, encoded, old(Snapshot()), false);
        Snapshot() == r.state && result == r.value
    {
      result := PublishLoopWith(encoded, false);
    }

    /** `Publish` with a nil channel treated as closed: the corrected form. */
    method PublishNilSafe(encoded: Result<seq<bv8>>) returns (result: PublishResult)
      modifies this, transport
      ensures var r := PublishSpec(transport.WireOf(), url, exchangeName, encoded, old(Snapshot()), true);
        Snapshot() == r.state && result == r.value
      ensures result != Panicked
    {
      NilSafePublishNeverPanics(transport.WireOf(), url, exchangeName, encoded, Snapshot());
      result := PublishLoopWith(encoded, true);
    }

    /** `handleReconnect`, lines 62-85, from the moment it starts waiting on
        the connection it was spawned for, observed for at most `attempts`
        connect attempts. The outer `for` never repeats: the only way out of
        the inner loop is `return`. */
    method HandleReconnect(attempts: nat) returns (reconnected: bool)
      requires conn.Some?
      modifies this, transport
      ensures var s := Then(old(Snapshot()), AwaitClose(old(conn).value));
        var r := ReconnectLoop(Connector(transport.WireOf(), url, exchangeName), s, Second, attempts);
        Snapshot() == r.state && reconnected == r.value
    {
      transport.NotifyClose(conn.value);
      reconnected := Reconnect(attempts);
    }

    /** One attempt of the inner loop, lines 70-75: sleep `wait`, then connect. */
    method Attempt(wait: nat) returns (err: Option<Error>)
      modifies this, transport
      ensures Connector(transport.WireOf(), url, exchangeName)(Then(old(Snapshot()), Sleep(wait))) == Step(Snapshot(), err)
    {
      transport.Sleep(wait);
      err := Connect();
    }

    /** The inner loop of lines 69-83: sleep, connect, double the wait up to
        30 s, until a connect succeeds or `attempts` attempts were made. */
    method Reconnect(attempts: nat) returns (reconnected: bool)
      modifies this, transport
      ensures var r := ReconnectLoop(Connector(transport.WireOf(), url, exchangeName), old(Snapshot()), Second, attempts);
        Snapshot() == r.state && reconnected == r.value
    {
      var retryWait: nat := Second;
      var left := attempts;
      ghost var connect := Connector(transport.WireOf(), url, exchangeName);
      ghost var whole := ReconnectLoop(connect, Snapshot(), Second, attempts);
      while left > 0
        invariant whole == ReconnectLoop(connect, Snapshot(), retryWait, left)
      {
        var err := Attempt(retryWait);
        if err.None? {
          return true;
        }
        retryWait := NextWait(retryWait);
        left := left - 1;
      }
      return false;
    }

    /** `Close`, lines 127-135: close the channel, then the connection,
        skipping each that is nil. The fields keep their values. */
    method Close()
      modifies transport
      ensures transport.log == old(transport.log)
        + (if channel.Some? then [Effect.CloseChannel(channel.value)] else [])
        + (if conn.Some? then [Effect.CloseConnection(conn.value)] else [])
    {
      if channel.Some? {
        transport.CloseChannel(channel.value);
      }
      if conn.Some? {
        transport.CloseConnection(conn.value);
      }
    }
  }

  /** `NewClient`, lines 23-37: connect once and hand back the client, or the
      error. The reconnect goroutine it starts is `Client.HandleReconnect`. */
  method NewClient(url: string, exchange: string, transport: Transport) returns (client: Client?, err: Option<Error>)
    modifies transport
    ensures var r := ConnectSpec(transport.WireOf(), url, exchange, State(None, None, old(transport.log)));
      transport.log == r.state.log && err == r.value && (client == null <==> err.Some?) &&
      (client != null ==>
        fresh(client) && client.url == url && client.exchangeName == exchange && client.transport == transport &&
        client.Snapshot() == r.state)
  {
    var c := new Client(url, exchange, transport);
    err := c.Connect();
    if err.Some? {
      return null, err;
    }
    client := c;
  }
}
