/** A watch: one downstream subscriber's delivery channel, with a buffer of
    capacity one, a non-blocking send, an explicit "drop the stale response"
    operation and a terminal close (internal/app/transport/watch.go).

    The Go channel is modelled sequentially: its buffer is a sequence the
    operations reassign, and a consumer read is the `Receive` operation.
    The pure step functions below say what each operation does to a
    `Mailbox` (buffer and closed flag); the class `Watch` holds that state
    in fields and its methods are proved to follow the step functions, so
    the trace lemmas about the functions hold of the class too. */
module Watch {
  import opened Wrappers
  import opened Discovery
  import TransportV2

  /** The schema generation a watch is built for: WatchV2 or WatchV3. */
  datatype Schema = V2 | V3

  /** What a Response's `GetPayload` yields: a cache response of one of the
      two schema generations, or a value of some other type. */
  datatype Payload =
    | Cache(schema: Schema, response: CacheResponse)
    | Foreign(description: string)

  /** The buffer size of the watch's channel. */
  const Capacity: nat := 1

  /** The error `Send` reports when the payload is not of the watch's type. */
  datatype WatchError = PayloadMismatch(payload: Payload)

  /** Go's `(bool, error)` result of `Send`. */
  datatype SendResult = SendResult(ok: bool, err: Option<WatchError>)

  /** What one consumer read of the channel yields: a buffered value, the
      "no more values" signal of a closed and drained channel, or nothing
      yet (the read would wait for a send or a close). */
  datatype Received = Value(response: CacheResponse) | NoMoreValues | Pending

  /** The state of a watch's channel. */
  datatype Mailbox = Mailbox(buffer: seq<CacheResponse>, closed: bool)

  /** A freshly made channel: open and empty. */
  const Empty: Mailbox := Mailbox([], false)

  /** The channel never holds more than its capacity. */
  predicate Bounded(m: Mailbox) {
    |m.buffer| <= Capacity
  }

  /** `Send` accepts a payload only of the watch's own variant. */
  predicate IsVariantOf(p: Payload, schema: Schema) {
    p.Cache? && p.schema == schema
  }

  /** Go panics on a send to a closed channel; `Send` reaches the channel
      only for a payload of the right variant, so only that case is
      excluded. */
  predicate CanSend(m: Mailbox, schema: Schema, p: Payload) {
    !m.closed || !IsVariantOf(p, schema)
  }

  /** The non-blocking send: a payload of the wrong variant is an error and
      changes nothing; otherwise the response is enqueued if there is room
      and refused, with no error, if not. */
  function SendStep(m: Mailbox, schema: Schema, p: Payload): (r: (Mailbox, SendResult))
    requires CanSend(m, schema, p)
    ensures r.1.err.Some? <==> !IsVariantOf(p, schema)
    ensures r.1.ok ==> IsVariantOf(p, schema) && r.0.buffer == m.buffer + [p.response]
    ensures !r.1.ok ==> r.0 == m
    ensures r.0.closed == m.closed
    ensures Bounded(m) ==> Bounded(r.0)
  {
    if !IsVariantOf(p, schema) then
      (m, SendResult(false, Some(PayloadMismatch(p))))
    else if |m.buffer| < Capacity then
      (m.(buffer := m.buffer + [p.response]), SendResult(true, None))
    else
      (m, SendResult(false, None))
  }

  /** A consumer read.  Buffered values are delivered even after close. */
  function ReceiveStep(m: Mailbox): (r: (Mailbox, Received))
    ensures r.1.Value? <==> m.buffer != []
    ensures r.1.Value? ==> [r.1.response] + r.0.buffer == m.buffer
    ensures r.1 == NoMoreValues <==> m.closed && m.buffer == []
    ensures !r.1.Value? ==> r.0 == m
    ensures r.0.closed == m.closed
  {
    if |m.buffer| > 0 then (m.(buffer := m.buffer[1..]), Value(m.buffer[0]))
    else if m.closed then (m, NoMoreValues)
    else (m, Pending)
  }

  /** Removes a buffered, undelivered response, reporting whether there was
      one. */
  function DropStep(m: Mailbox): (r: (Mailbox, bool))
    ensures r.1 <==> m.buffer != []
    ensures r.1 ==> [m.buffer[0]] + r.0.buffer == m.buffer
    ensures !r.1 ==> r.0 == m
    ensures r.0.closed == m.closed
  {
    if |m.buffer| > 0 then (m.(buffer := m.buffer[1..]), true) else (m, false)
  }

  /** Closing is terminal; Go panics when a channel is closed twice. */
  function CloseStep(m: Mailbox): (r: Mailbox)
    requires !m.closed
    ensures r.closed && r.buffer == m.buffer
  {
    m.(closed := true)
  }

  // ---------------------------------------------------------------------
  // Traces of operations

  /** One call on a watch, by the producer or by the consumer. */
  datatype Op = SendOp(payload: Payload) | ReceiveOp | DropOp | CloseOp

  /** What the call returned. */
  datatype Outcome =
    | SendReturned(result: SendResult)
    | ReceiveReturned(received: Received)
    | DropReturned(dropped: bool)
    | CloseReturned

  /** The effect of a run of calls: the final channel state, what each call
      returned, the responses the channel accepted, those it gave up
      (delivered or dropped, in order) and those the consumer got. */
  datatype Trace = Trace(
    final: Mailbox,
    log: seq<Outcome>,
    accepted: seq<CacheResponse>,
    removed: seq<CacheResponse>,
    observed: seq<CacheResponse>)

  /** A call the source can make without panicking. */
  predicate Allowed(m: Mailbox, schema: Schema, op: Op) {
    match op
    case SendOp(p) => CanSend(m, schema, p)
    case CloseOp => !m.closed
    case _ => true
  }

  /** One call, as a trace of length one. */
  function Apply(m: Mailbox, schema: Schema, op: Op): Trace
    requires Allowed(m, schema, op)
  {
    match op
    case SendOp(p) =>
      var (m', r) := SendStep(m, schema, p);
      Trace(m', [SendReturned(r)], if r.ok then [p.response] else [], [], [])
    case ReceiveOp =>
      var (m', v) := ReceiveStep(m);
      var got := if v.Value? then [v.response] else [];
      Trace(m', [ReceiveReturned(v)], [], got, got)
    case DropOp =>
      var (m', d) := DropStep(m);
      Trace(m', [DropReturned(d)], [], if d then [m.buffer[0]] else [], [])
    case CloseOp =>
      Trace(CloseStep(m), [CloseReturned], [], [], [])
  }

  /** Every call of the run is allowed in the state it meets. */
  predicate Admissible(m: Mailbox, schema: Schema, ops: seq<Op>)
    decreases |ops|
  {
    |ops| == 0 ||
    (Allowed(m, schema, ops[0]) && Admissible(Apply(m, schema, ops[0]).final, schema, ops[1..]))
  }

  /** The calls one after the other. */
  function Run(m: Mailbox, schema: Schema, ops: seq<Op>): (t: Trace)
    requires Admissible(m, schema, ops)
    ensures |t.log| == |ops|
    ensures m.closed ==> t.final.closed
    decreases |ops|
  {
    if |ops| == 0 then Trace(m, [], [], [], [])
    else
      var t := Apply(m, schema, ops[0]);
      var rest := Run(t.final, schema, ops[1..]);
      Trace(rest.final, t.log + rest.log, t.accepted + rest.accepted,
            t.removed + rest.removed, t.observed + rest.observed)
  }

  // ---------------------------------------------------------------------
  // Single calls

  /** A payload of the wrong variant is reported as an error and leaves the
      buffer and the closed flag as they were, on an open or closed watch. */
  lemma SendMismatchChangesNothing(m: Mailbox, schema: Schema, p: Payload)
    requires !IsVariantOf(p, schema)
    ensures SendStep(m, schema, p).0 == m
    ensures !SendStep(m, schema, p).1.ok && SendStep(m, schema, p).1.err.Some?
  {
  }

  /** On an open watch with a free slot, a matching send is accepted with no
      error, and the next read yields that response. */
  lemma SendToFreeSlotIsDelivered(m: Mailbox, schema: Schema, p: Payload)
    requires !m.closed && m.buffer == [] && IsVariantOf(p, schema)
    ensures SendStep(m, schema, p).1 == SendResult(true, None)
    ensures ReceiveStep(SendStep(m, schema, p).0).1 == Value(p.response)
    ensures ReceiveStep(SendStep(m, schema, p).0).0 == m
  {
  }

  /** On a full slot a matching send returns at once, refused with no error,
      and the buffered response stays. */
  lemma SendToFullSlotRefused(m: Mailbox, schema: Schema, p: Payload)
    requires !m.closed && |m.buffer| == Capacity && IsVariantOf(p, schema)
    ensures SendStep(m, schema, p) == (m, SendResult(false, None))
  {
  }

  /** `DropRedundant` reports true exactly when a response was buffered, and
      afterwards the buffer is empty; the closed flag is untouched. */
  lemma DropRedundantEmpties(m: Mailbox)
    requires Bounded(m)
    ensures DropStep(m).1 <==> m.buffer != []
    ensures DropStep(m).0 == m.(buffer := [])
  {
  }

  /** Latest state wins: dropping the stale response before sending makes
      room, so the send is accepted and the new response is the only one
      buffered, whatever was buffered before. */
  lemma DropThenSendSucceeds(m: Mailbox, schema: Schema, p: Payload)
    requires Bounded(m) && !m.closed && IsVariantOf(p, schema)
    ensures SendStep(DropStep(m).0, schema, p).1 == SendResult(true, None)
    ensures SendStep(DropStep(m).0, schema, p).0.buffer == [p.response]
  {
  }

  /** A closed and drained channel reports "no more values", not a value;
      a closed channel with a buffered value still delivers it first. */
  lemma ReceiveAfterClose(m: Mailbox)
    requires m.closed
    ensures m.buffer == [] ==> ReceiveStep(m) == (m, NoMoreValues)
    ensures m.buffer != [] ==> ReceiveStep(m).1 == Value(m.buffer[0])
  {
  }

  // ---------------------------------------------------------------------
  // Runs

  /** The channel never holds more than one undelivered response, across
      any run of sends, reads, drops and a close. */
  lemma {:induction false} RunStaysBounded(m: Mailbox, schema: Schema, ops: seq<Op>)
    requires Bounded(m) && Admissible(m, schema, ops)
    ensures Bounded(Run(m, schema, ops).final)
    decreases |ops|
  {
    if |ops| > 0 {
      RunStaysBounded(Apply(m, schema, ops[0]).final, schema, ops[1..]);
    }
  }

  /** One call conserves responses: what was buffered plus what it accepted
      equals what it gave up plus what is buffered after it. */
  lemma ApplyConservesResponses(m: Mailbox, schema: Schema, op: Op)
    requires Allowed(m, schema, op)
    ensures m.buffer + Apply(m, schema, op).accepted
            == Apply(m, schema, op).removed + Apply(m, schema, op).final.buffer
  {
    if op.ReceiveOp? || op.DropOp? {
      if |m.buffer| > 0 {
        assert m.buffer == [m.buffer[0]] + m.buffer[1..];
      }
    }
  }

  /** Nothing is lost, duplicated or reordered: what was buffered plus what
      was accepted equals what was given up (delivered or dropped) plus what
      is still buffered, in order. */
  lemma {:induction false} RunConservesResponses(m: Mailbox, schema: Schema, ops: seq<Op>)
    requires Admissible(m, schema, ops)
    ensures m.buffer + Run(m, schema, ops).accepted
            == Run(m, schema, ops).removed + Run(m, schema, ops).final.buffer
    decreases |ops|
  {
    if |ops| > 0 {
      var t := Apply(m, schema, ops[0]);
      var rest := Run(t.final, schema, ops[1..]);
      ApplyConservesResponses(m, schema, ops[0]);
      RunConservesResponses(t.final, schema, ops[1..]);
      Regroup(m.buffer, t.accepted, rest.accepted, t.removed, t.final.buffer,
              rest.removed, rest.final.buffer);
    }
  }

  /** If x + a == c + f and f + b == d + e, then x + (a + b) == (c + d) + e. */
  lemma Regroup<T>(x: seq<T>, a: seq<T>, b: seq<T>, c: seq<T>, f: seq<T>, d: seq<T>, e: seq<T>)
    requires x + a == c + f && f + b == d + e
    ensures x + (a + b) == (c + d) + e
  {
    calc {
      x + (a + b);
      (x + a) + b;
      (c + f) + b;
      c + (f + b);
      c + (d + e);
      (c + d) + e;
    }
  }

  /** Every response the consumer gets is one the channel gave up.  (The
      order in which the channel gives responses up is the order in which
      it accepted them, by RunConservesResponses.) */
  lemma {:induction false} RunObservesOnlyRemoved(m: Mailbox, schema: Schema, ops: seq<Op>)
    requires Admissible(m, schema, ops)
    ensures multiset(Run(m, schema, ops).observed) <= multiset(Run(m, schema, ops).removed)
    decreases |ops|
  {
    if |ops| > 0 {
      RunObservesOnlyRemoved(Apply(m, schema, ops[0]).final, schema, ops[1..]);
    }
  }

  /** Close is terminal: a closed watch stays closed and accepts nothing,
      whatever calls follow. */
  lemma {:induction false} RunAfterCloseAcceptsNothing(m: Mailbox, schema: Schema, ops: seq<Op>)
    requires m.closed && Admissible(m, schema, ops)
    ensures Run(m, schema, ops).final.closed
    ensures Run(m, schema, ops).accepted == []
    decreases |ops|
  {
    if |ops| > 0 {
      RunAfterCloseAcceptsNothing(Apply(m, schema, ops[0]).final, schema, ops[1..]);
    }
  }

  // ---------------------------------------------------------------------
  // The watch object

  /** WatchV2 / WatchV3: the correlation request and the channel.  The two
      Go types differ only in the payload type their channel carries, which
      is `schema` here. */
  class Watch {
    const schema: Schema
    const req: TransportV2.RequestV2
    var buffer: seq<CacheResponse>
    var closed: bool

    /** The channel state the fields stand for. */
    function State(): Mailbox
      reads this
    {
      Mailbox(buffer, closed)
    }

    ghost predicate Valid()
      reads this
    {
      Bounded(State())
    }

    /** A v2 watch: open, empty, holding exactly `req`. */
    constructor NewWatchV2(req: TransportV2.RequestV2)
      ensures schema == V2 && this.req == req
      ensures State() == Empty && Valid()
    {
      schema := V2;
      this.req := req;
      buffer := [];
      closed := false;
    }

    /** A v3 watch: open, empty, holding exactly `req`.  The request is a
        RequestV2 because that is the only implementation of the source's
        Request interface: RequestV3 has no CreateResponse. */
    constructor NewWatchV3(req: TransportV2.RequestV2)
      ensures schema == V3 && this.req == req
      ensures State() == Empty && Valid()
    {
      schema := V3;
      this.req := req;
      buffer := [];
      closed := false;
    }

    /** The correlation request, unchanged since construction. */
    method GetRequest() returns (r: TransportV2.RequestV2)
      ensures r == req
    {
      r := req;
    }

    /** Closes the channel; the buffer is kept for the consumer to drain. */
    method Close()
      requires Valid() && !closed
      modifies this
      ensures Valid()
      ensures closed && buffer == old(buffer)
      ensures State() == CloseStep(old(State()))
    {
      closed := true;
    }

    /** The non-blocking send of `p`. */
    method Send(p: Payload) returns (r: SendResult)
      requires Valid() && CanSend(State(), schema, p)
      modifies this
      ensures Valid() && closed == old(closed)
      ensures !IsVariantOf(p, schema) ==>
                r == SendResult(false, Some(PayloadMismatch(p))) && buffer == old(buffer)
      ensures IsVariantOf(p, schema) && old(buffer) == [] ==>
                r == SendResult(true, None) && buffer == [p.response]
      ensures IsVariantOf(p, schema) && old(buffer) != [] ==>
                r == SendResult(false, None) && buffer == old(buffer)
      ensures (State(), r) == SendStep(old(State()), schema, p)
    {
      if !IsVariantOf(p, schema) {
        return SendResult(false, Some(PayloadMismatch(p)));
      }
      if |buffer| < Capacity {
        buffer := buffer + [p.response];
        r := SendResult(true, None);
      } else {
        r := SendResult(false, None);
      }
    }

    /** A consumer read of the channel `GetCh` returns. */
    method Receive() returns (v: Received)
      requires Valid()
      modifies this
      ensures Valid() && closed == old(closed)
      ensures old(buffer) != [] ==> v == Value(old(buffer)[0]) && buffer == []
      ensures old(buffer) == [] ==> buffer == [] && (v == if closed then NoMoreValues else Pending)
      ensures (State(), v) == ReceiveStep(old(State()))
    {
      if |buffer| > 0 {
        v := Value(buffer[0]);
        buffer := buffer[1..];
      } else if closed {
        v := NoMoreValues;
      } else {
        v := Pending;
      }
    }

    /** Drops the buffered, undelivered response if there is one. */
    method DropRedundant() returns (dropped: bool)
      requires Valid()
      modifies this
      ensures Valid() && closed == old(closed)
      ensures dropped <==> old(buffer) != []
      ensures buffer == []
      ensures (State(), dropped) == DropStep(old(State()))
    {
      dropped := |buffer| > 0;
      if dropped {
        buffer := buffer[1..];
      }
    }
  }

  /** A cache response carrying only a version, as the DropRedundant test
      builds them. */
  function Versioned(req: TransportV2.RequestV2, version: string): CacheResponse {
    CacheResponse(req.r, version, [])
  }

  /** The DropRedundant scenario on a fresh v2 watch: send "1", the consumer
      reads, drop, send "5", drop, send "2", the consumer reads.  Every send
      is accepted with no error, the first drop finds nothing and the second
      drops "5", and the consumer reads "1" then "2", never "5". */
  method DropRedundantScenario(req: TransportV2.RequestV2)
    returns (sends: seq<SendResult>, drops: seq<bool>, got: seq<Received>)
    ensures sends == [SendResult(true, None), SendResult(true, None), SendResult(true, None)]
    ensures drops == [false, true]
    ensures got == [Value(Versioned(req, "1")), Value(Versioned(req, "2"))]
    ensures Value(Versioned(req, "5")) !in got
  {
    var w := new Watch.NewWatchV2(req);
    var s1 := w.Send(Cache(V2, Versioned(req, "1")));
    var v1 := w.Receive();
    var d1 := w.DropRedundant();
    var s5 := w.Send(Cache(V2, Versioned(req, "5")));
    var d5 := w.DropRedundant();
    var s2 := w.Send(Cache(V2, Versioned(req, "2")));
    var v2 := w.Receive();
    w.Close();
    sends, drops, got := [s1, s5, s2], [d1, d5], [v1, v2];
    assert Versioned(req, "5") != Versioned(req, "1");
    assert Versioned(req, "5") != Versioned(req, "2");
  }
}
