# xDS relay streaming core in Dafny

This project models two pieces of the xDS relay's streaming engine and the
v2 request/response envelope they exchange.

- **The watch** (`watch.dfy`, module `Watch`). Each downstream subscription
  gets one watch: a correlation request plus a channel whose buffer holds
  one response. `Send` checks that the payload is the watch's own schema
  variant and then enqueues without blocking. `DropRedundant` throws away
  a stale buffered response. `Close` is terminal. The channel is modelled
  sequentially. The class `Watch` keeps the buffer (a sequence) and the
  closed flag in fields, and its methods update them in place. Each method
  is proved to follow a pure step function on a `Mailbox` value. Lemmas
  about runs of those step functions prove:
  - the buffer never holds more than one response;
  - no response is lost, duplicated or reordered;
  - a closed watch accepts nothing.

  The DropRedundant test's trace is replayed on a `Watch` object.
- **The upstream client's stream protocol** (`upstream.dfy`, module
  `Upstream`). `OpenStream` first checks the type URL against the four v2
  resource kinds and then needs the transport to create the stream. Every
  request sent afterwards echoes the version and nonce of the last
  response received (the ACK rule). Responses reach the caller in arrival
  order. A failed or timed-out send, or a cancel, closes the caller's
  channel. The model also closes it when the transport reports an error on
  the receive side (`OnTransportError`), a case the client tests do not
  exercise.
  - The pure function `InducedRequests` maps a response sequence to the
    request sequence it causes.
  - A session is a value (`SessionState`) that events (`Arrive`,
    `TransportFailed`, `Cancelled`) step forward.
  - The class `StreamSession` keeps that state in fields, updated once per
    event.
- **The v2 envelope** (`transport_v2.dfy`, module `TransportV2`):
  `NewRequestV2`, `CreateResponse`, and the cache adapter `V2`, whose
  `Fetch` and `CreateWatch` are stubs.
- `discovery.dfy` holds the go-control-plane records with only the fields
  the core uses. `wrappers.dfy` holds `Option` and `Result`.

Where Go's semantics or the code itself decide the behaviour, the model follows the code:

- **Close twice.** `Close` calls `close(w.out)`
  (internal/app/transport/watch.go:35), and Go panics when a channel is
  closed a second time, so `Close` may be called only once. So
  `Watch.Close` requires an open watch.
- **Send after Close.** Go also panics on a send to a closed channel, but
  `Send` reaches the channel only after the payload type check passes
  (watch.go:43-46). So its precondition excludes only a matching payload on
  a closed watch. A mismatched payload on a closed watch still returns the
  error.
- **CreateResponse identifiers.** internal/app/transport/v2.go:65-66 assign
  the undefined identifiers `version` and `protos`, so that code does not
  compile. `TransportV2.CreateResponse` models the evident intent: it
  stores the `payloadVersion` and `proto` parameters.
- **CreateResponse return type.** v2.go:62 declares the result as
  `*Response` rather than `Response`. The model returns the `ResponseV2`
  record.

## Model

| member | source | states |
|---|---|---|
| `TransportV2.V2.CreateWatch` | internal/app/transport/v2.go:28-30 | for every request, no response channel and no cancel function |
| `TransportV2.V2.Fetch` | internal/app/transport/v2.go:33-35 | for every request, a failure carrying "Fetch is not supported" and no response |
| `TransportV2.NewRequestV2` | internal/app/transport/v2.go:45-49 | the envelope wraps exactly the given discovery request |
| `TransportV2.NewRequestV2Injective` | internal/app/transport/v2.go:45-49 | wrapping loses nothing: equal envelopes iff equal requests |
| `TransportV2.CreateResponse` | internal/app/transport/v2.go:62-69 | the response's request is the receiver, its version is the payloadVersion argument, resources and marshaled resources are kept unchanged and in order |
| `TransportV2.CreateResponseInjective` | internal/app/transport/v2.go:62-69 | packaging loses nothing: two responses are equal iff built from the same request, version and resources |
| `Watch.SendStep` | internal/app/transport/watch.go:42-54 | an error exactly when the payload is not the watch's variant; an accepted send appends the payload's response; a refused one changes nothing; the closed flag and the one-slot bound are kept |
| `Watch.ReceiveStep` | internal/app/transport/watch.go:38-40 | a value exactly when one is buffered, and it is the buffer's head; "no more values" exactly when closed and drained; otherwise nothing changes |
| `Watch.DropStep` | internal/app/transport/watch_test.go:104-115 | true exactly when a response was buffered, and then only that head response is removed; false changes nothing; the closed flag is kept |
| `Watch.CloseStep` | internal/app/transport/watch.go:34-36 | the watch is closed and its buffer kept for the consumer |
| `Watch.Run` | internal/app/transport/watch_test.go:75-130 | as many outcomes as operations; a closed watch stays closed |
| `Watch.Watch.NewWatchV2` | internal/app/transport/watch.go:27-32 | a v2 watch is open, its buffer is empty, and it holds exactly the given request |
| `Watch.Watch.NewWatchV3` | internal/app/transport/watch.go:69-74 | a v3 watch is open, its buffer is empty, and it holds exactly the given request |
| `Watch.Watch.GetRequest` | internal/app/transport/watch.go:56-58 | returns the request the watch was built with |
| `Watch.Watch.Close` | internal/app/transport/watch.go:34-36 | requires an open watch; afterwards closed, with the buffer kept for the consumer |
| `Watch.Watch.Send` | internal/app/transport/watch.go:42-54 | wrong variant: (false, error), nothing changes; free slot: (true, no error) and the response is buffered; full slot: (false, no error), buffer unchanged; the one-slot bound is kept |
| `Watch.Watch.Receive` | internal/app/transport/watch.go:38-40 | a consumer read of the channel: the buffered response and an empty buffer; otherwise "no more values" if closed, or nothing yet if open |
| `Watch.Watch.DropRedundant` | internal/app/transport/watch_test.go:104-115 | returns true iff a response was buffered; afterwards the buffer is empty and the closed flag unchanged |
| `Watch.SendMismatchChangesNothing` | internal/app/transport/watch.go:43-46 | a payload of the wrong variant yields not-ok with an error and leaves buffer and closed flag unchanged, on an open or a closed watch |
| `Watch.SendToFreeSlotIsDelivered` | internal/app/transport/watch.go:48-50 | an open watch with an empty slot accepts with no error, and the next read yields that response |
| `Watch.SendToFullSlotRefused` | internal/app/transport/watch.go:51-53 | on a full slot, send returns (false, no error) at once and the buffered response stays |
| `Watch.DropRedundantEmpties` | internal/app/transport/watch_test.go:104-115 | drop reports true exactly when a response was buffered, and leaves the buffer empty |
| `Watch.DropThenSendSucceeds` | internal/app/transport/watch_test.go:113-119 | latest state wins: drop then send is always accepted, and leaves exactly the new response buffered |
| `Watch.ReceiveAfterClose` | internal/app/transport/watch_test.go:12-24 | a closed, drained channel reports "no more values", not a value; a closed channel still delivers a buffered value first |
| `Watch.RunStaysBounded` | internal/app/transport/watch.go:30 | across any run of sends, reads, drops and a close, the buffer never holds more than one response |
| `Watch.ApplyConservesResponses` | internal/app/transport/watch.go:48-53 | one call neither loses nor invents a response |
| `Watch.RunConservesResponses` | internal/app/transport/watch.go:48-53 | over any run, initial buffer + accepted = given up (read or dropped) + final buffer, in order: nothing lost, duplicated or reordered |
| `Watch.RunObservesOnlyRemoved` | internal/app/transport/watch.go:48-53 | every response the consumer reads is one the channel gave up |
| `Watch.RunAfterCloseAcceptsNothing` | internal/app/transport/watch.go:34-36 | once closed, a watch stays closed and accepts no response, whatever follows |
| `Watch.DropRedundantScenario` | internal/app/transport/watch_test.go:75-130 | send "1", read, drop, send "5", drop, send "2", read: all sends accepted, drops false then true, the consumer reads "1" then "2" and never "5" |
| `Upstream.IsKnownTypeUrl` | internal/app/upstream/client_test.go:19-37 | true exactly for the listener, cluster, route and endpoint type URLs of the v2 API; false for the empty type URL |
| `Upstream.FirstRequest` | internal/app/upstream/client_test.go:128-153 | the caller's subscription (node, type URL, names) with empty version and nonce |
| `Upstream.AckRequest` | internal/app/upstream/client_test.go:132-147 | the caller's subscription carrying the version and nonce of the response it acknowledges |
| `Upstream.InducedRequests` | internal/app/upstream/client_test.go:128-162 | the first request, then one acknowledgement per response, in order: it is never empty, and its head is the caller's subscription with empty version and nonce |
| `Upstream.Step` | internal/app/upstream/client_test.go:93-185 | one event keeps the caller's request, changes nothing on a closed session, at most appends one forwarded response and one sent request, and a new request is sent only for an arriving response just forwarded |
| `Upstream.Run` | internal/app/upstream/client_test.go:155-159 | a run of events keeps the caller's request and forwards and sends at most one item per event |
| `Upstream.WithAck` | internal/app/upstream/client_test.go:132-147 | a request with new ACK fields keeps the subscription (node, type URL, names) and loses nothing of the original |
| `Upstream.InducedRequestsFollowAckRule` | internal/app/upstream/client_test.go:128-162 | one more request than responses; the first has the caller's node and type URL with empty version and nonce; request i+1 echoes the version and nonce of response i |
| `Upstream.AckRequestsAppend` | internal/app/upstream/client_test.go:132-147 | acknowledging one more response appends exactly its acknowledgement |
| `Upstream.Open` | internal/app/upstream/client_test.go:19-60 | an error exactly when the type URL is not one of the four or creation fails; an unknown type URL gives UnsupportedResourceError; a success starts with nothing forwarded, open exactly when the first send succeeded |
| `Upstream.OpenIsAckConsistent` | internal/app/upstream/client_test.go:81-89 | a new session satisfies the ACK invariant |
| `Upstream.StepKeepsAckConsistent` | internal/app/upstream/client_test.go:128-162 | every event keeps the ACK invariant: the last version and nonce are those of the last forwarded response, and sent requests are those the ACK rule induces (a prefix once closed) |
| `Upstream.RunKeepsAckConsistent` | internal/app/upstream/client_test.go:128-162 | any run of events keeps the ACK invariant |
| `Upstream.ClosedIsTerminal` | internal/app/upstream/client_test.go:104-105 | a closed session ignores every later event: nothing more is sent or forwarded |
| `Upstream.RunExtendsDelivered` | internal/app/upstream/client_test.go:155-159 | forwarding only ever appends, so earlier responses keep their place |
| `Upstream.OpenStreamForwardsAndAcks` | internal/app/upstream/client_test.go:128-162 | with all sends succeeding, the caller receives exactly the responses in arrival order and the server receives InducedRequests of them |
| `Upstream.ArrivalsForwardAndAck` | internal/app/upstream/client_test.go:155-159 | on an open session, successfully acknowledged arrivals append the responses to the forwarded ones and their acknowledgements to the sent ones |
| `Upstream.FailedFirstSendDeliversNothing` | internal/app/upstream/client_test.go:93-107 | if the first send fails or times out, OpenStream returns a channel and no error, but the session is closed and forwards no value, whatever follows |
| `Upstream.StreamSession.Start` | internal/app/upstream/client_test.go:81-89 | a new session has sent the first request (or nothing, closed, if that send failed), with empty last version and nonce |
| `Upstream.StreamSession.OnResponse` | internal/app/upstream/client_test.go:132-147 | an arriving response is forwarded, becomes the last version and nonce, and is acknowledged; a failed or timed-out acknowledgement closes the session; a closed session is unchanged |
| `Upstream.StreamSession.OnTransportError` | internal/app/upstream/client_test.go:104-105 | the session closes, so the caller's channel yields no further value; nothing else changes |
| `Upstream.StreamSession.Cancel` | internal/app/upstream/client_test.go:59 | the session closes, nothing else changes; cancelling again is harmless |
| `Upstream.StreamSession.Drive` | internal/app/upstream/client_test.go:155-159 | applying events one by one in a loop gives the run of the pure session model |
| `Upstream.OpenStream` | internal/app/upstream/client_test.go:19-60 | exactly one of channel and error; the error is the gate's; on success a fresh session in the opened state |
| `Upstream.NextRequestScenario` | internal/app/upstream/client_test.go:128-162 | five responses "0".."4" reach the caller in order; the first request has the caller's node, the listener type URL and empty ACK fields, and request i+1 echoes "i" |

## Left out

- Concurrency. Goroutines and blocking are not modelled. Go channels are
  modelled as sequential state, and the sender and receiver loops as one
  sequence of events. A read that would block returns `Pending`, so a
  concurrent `Close` racing a read (watch_test.go:12-24) is not modelled.
- `GetCh` returns the channel itself. The model offers the consumer's read
  of it instead (`Watch.Receive`).
- `GetPayload`. `ResponseV2.GetPayload` is not in the modelled files. The
  watch's `Send` therefore takes the payload, the only thing it asks of a
  Response (watch.go:43). The error message's formatting (watch.go:45, :87)
  is reduced to "an error, carrying the payload".
- `DropRedundant`'s implementation is not in the modelled files. It is
  modelled as its tests use it: a non-blocking removal of the buffered
  response.
- The upstream client's implementation file (client.go) is not part of this
  model. Neither are its mock constructor, gRPC streams, `context`
  cancellation or real timeouts.
  - Stream creation is a boolean parameter of `OpenStream`.
  - A send's success, failure or timeout is a parameter of the event that
    causes the send.
  - The first request is taken to be the caller's request with empty
    version and nonce, as the tests check (client_test.go:130, :135-136).
  - A stream-creation error carries no detail.
- internal/app/transport/v3.go is not part of this model. It holds only
  stubs, and none of its envelope behaviour is invented here. The watch
  covers both schema generations through its `schema` field.
  `Watch.Watch.NewWatchV3` takes a `TransportV2.RequestV2`, because
  RequestV2 is the only implementation of the Request interface: v3.go
  gives RequestV3 no `CreateResponse`.
- internal/app/transport/transport.go (gRPC service registration) and
  internal/app/transport/request.go (a one-method interface, implemented
  here by `TransportV2.CreateResponse`) are not part of this model.
- `NewV2` is the datatype constructor `TransportV2.V2`. The shared cache it
  wraps is an opaque handle.
- `Upstream.StreamSession.OnTransportError`: the receive loop ending on a
  transport error, which the client tests do not exercise. The model
  closes the session, as the closed channel of client_test.go:104-105
  shows for a failed send.
- The go-control-plane records keep only the fields the core reads or
  writes. Resources are opaque.
