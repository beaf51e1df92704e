/** The upstream client's stream protocol: the type-URL gate of
    `OpenStream`, the version/nonce ACK rule that builds each request sent
    to the origin server, ordered forwarding of responses to the caller,
    and the session's end on a send failure, a send timeout, a transport
    error or cancellation.

    The client's implementation file is not part of this model; what is
    modelled is the protocol its tests (internal/app/upstream/client_test.go)
    fix.  Its two concurrent loops are modelled as one sequence of events:
    a response arriving (it is forwarded, then acknowledged by a send whose
    outcome is part of the event), a transport error, or a cancel. */
module Upstream {
  import opened Wrappers
  import opened Discovery

  /** The resource kinds of the v2 API that have a stream. */
  const KnownTypeUrls: set<string> := {ListenerType, ClusterType, RouteType, EndpointType}

  /** Only the four resource kinds of the v2 API have a stream; the empty
      type URL of a default request is not one of them. */
  predicate IsKnownTypeUrl(typeUrl: string): (b: bool)
    ensures b <==> typeUrl in KnownTypeUrls
    ensures typeUrl == "" ==> !b
  {
    typeUrl == ListenerType || typeUrl == ClusterType ||
    typeUrl == RouteType || typeUrl == EndpointType
  }

  /** Errors `OpenStream` returns synchronously. */
  datatype StreamError =
    | UnsupportedResource(typeUrl: string)
    | StreamCreationFailed

  /** How one send to the origin server ended. */
  datatype SendOutcome = SendOk | SendFailed | SendTimedOut

  /** Two requests ask for the same thing: they agree on everything except
      the ACK fields. */
  predicate SameSubscription(a: DiscoveryRequest, b: DiscoveryRequest) {
    && a.node == b.node
    && a.typeUrl == b.typeUrl
    && a.resourceNames == b.resourceNames
    && a.errorDetail == b.errorDetail
  }

  /** The request `req` with its ACK fields set to `version` and `nonce`. */
  function WithAck(req: DiscoveryRequest, version: string, nonce: string): (r: DiscoveryRequest)
    ensures r.versionInfo == version && r.responseNonce == nonce
    ensures SameSubscription(r, req)
    ensures r.(versionInfo := req.versionInfo, responseNonce := req.responseNonce) == req
  {
    req.(versionInfo := version, responseNonce := nonce)
  }

  /** The first request of a stream: the caller's request with empty
      version and nonce. */
  function FirstRequest(initial: DiscoveryRequest): (r: DiscoveryRequest)
    ensures r.versionInfo == "" && r.responseNonce == ""
    ensures SameSubscription(r, initial)
  {
    WithAck(initial, "", "")
  }

  /** The request that acknowledges `resp`: the caller's request echoing the
      response's version and nonce. */
  function AckRequest(initial: DiscoveryRequest, resp: DiscoveryResponse): (r: DiscoveryRequest)
    ensures r.versionInfo == resp.versionInfo && r.responseNonce == resp.nonce
    ensures SameSubscription(r, initial)
  {
    WithAck(initial, resp.versionInfo, resp.nonce)
  }

  /** The acknowledgements of `responses`, one per response, in order. */
  function AckRequests(initial: DiscoveryRequest, responses: seq<DiscoveryResponse>): seq<DiscoveryRequest>
    decreases |responses|
  {
    if |responses| == 0 then []
    else [AckRequest(initial, responses[0])] + AckRequests(initial, responses[1..])
  }

  /** The requests a stream sends when it receives `responses`: the first
      request, then one acknowledgement per response. */
  function InducedRequests(initial: DiscoveryRequest, responses: seq<DiscoveryResponse>): (rs: seq<DiscoveryRequest>)
    ensures |rs| > 0 && rs[0].versionInfo == "" && rs[0].responseNonce == ""
    ensures SameSubscription(rs[0], initial)
  {
    [FirstRequest(initial)] + AckRequests(initial, responses)
  }

  lemma {:induction false} AckRequestsAt(initial: DiscoveryRequest, responses: seq<DiscoveryResponse>, i: nat)
    requires i < |responses|
    ensures |AckRequests(initial, responses)| == |responses|
    ensures AckRequests(initial, responses)[i] == AckRequest(initial, responses[i])
    decreases |responses|
  {
    if i > 0 {
      AckRequestsAt(initial, responses[1..], i - 1);
    } else {
      AckRequestsLength(initial, responses);
    }
  }

  lemma {:induction false} AckRequestsLength(initial: DiscoveryRequest, responses: seq<DiscoveryResponse>)
    ensures |AckRequests(initial, responses)| == |responses|
    decreases |responses|
  {
    if |responses| > 0 {
      AckRequestsLength(initial, responses[1..]);
    }
  }

  /** Acknowledging one more response appends one request. */
  lemma {:induction false} AckRequestsAppend(
    initial: DiscoveryRequest, responses: seq<DiscoveryResponse>, resp: DiscoveryResponse)
    ensures AckRequests(initial, responses + [resp])
            == AckRequests(initial, responses) + [AckRequest(initial, resp)]
    decreases |responses|
  {
    if |responses| == 0 {
      assert responses + [resp] == [resp];
    } else {
      assert (responses + [resp])[1..] == responses[1..] + [resp];
      AckRequestsAppend(initial, responses[1..], resp);
    }
  }

  /** The ACK rule.  A stream that received `responses` sends one request
      more than it received responses.  The first carries the caller's
      subscription with empty version and nonce.  Request i+1 carries the
      same subscription and echoes the version and nonce of response i. */
  lemma InducedRequestsFollowAckRule(initial: DiscoveryRequest, responses: seq<DiscoveryResponse>)
    ensures |InducedRequests(initial, responses)| == |responses| + 1
    ensures InducedRequests(initial, responses)[0].versionInfo == ""
    ensures InducedRequests(initial, responses)[0].responseNonce == ""
    ensures SameSubscription(InducedRequests(initial, responses)[0], initial)
    ensures forall i :: 0 <= i < |responses| ==>
              && InducedRequests(initial, responses)[i + 1].versionInfo == responses[i].versionInfo
              && InducedRequests(initial, responses)[i + 1].responseNonce == responses[i].nonce
              && SameSubscription(InducedRequests(initial, responses)[i + 1], initial)
  {
    var rs := InducedRequests(initial, responses);
    AckRequestsLength(initial, responses);
    forall i | 0 <= i < |responses|
      ensures rs[i + 1] == AckRequest(initial, responses[i])
    {
      AckRequestsAt(initial, responses, i);
    }
  }

  // ---------------------------------------------------------------------
  // The session

  /** Whether the caller's response channel is still open. */
  datatype Phase = Streaming | Closed

  /** One stream session: the caller's request, whether the response
      channel is open, the last applied version and nonce, the requests
      sent to the origin server so far and the responses forwarded to the
      caller so far. */
  datatype SessionState = SessionState(
    initial: DiscoveryRequest,
    phase: Phase,
    lastVersion: string,
    lastNonce: string,
    sent: seq<DiscoveryRequest>,
    delivered: seq<DiscoveryResponse>)

  /** What can happen to an open session. */
  datatype Event =
    | Arrive(response: DiscoveryResponse, ack: SendOutcome)
    | TransportFailed
    | Cancelled

  /** `OpenStream(initial)`, given whether the transport could create the
      stream and how the send of the first request ended. */
  function Open(initial: DiscoveryRequest, created: bool, firstSend: SendOutcome): (r: Result<SessionState, StreamError>)
    ensures r.Failure? <==> !IsKnownTypeUrl(initial.typeUrl) || !created
    ensures !IsKnownTypeUrl(initial.typeUrl) ==> r == Failure(UnsupportedResource(initial.typeUrl))
    ensures IsKnownTypeUrl(initial.typeUrl) && !created ==> r == Failure(StreamCreationFailed)
    ensures r.Success? ==> r.value.initial == initial && r.value.delivered == []
    ensures r.Success? ==> (r.value.phase == Streaming <==> firstSend == SendOk)
  {
    if !IsKnownTypeUrl(initial.typeUrl) then Failure(UnsupportedResource(initial.typeUrl))
    else if !created then Failure(StreamCreationFailed)
    else if firstSend == SendOk then Success(SessionState(initial, Streaming, "", "", [FirstRequest(initial)], []))
    else Success(SessionState(initial, Closed, "", "", [], []))
  }

  /** One event.  A closed session ignores everything.  An arriving
      response is forwarded to the caller and becomes the last applied
      version and nonce; its acknowledgement is then sent, and if that send
      fails or times out the session closes.  A transport error or a cancel
      closes the session. */
  function Step(s: SessionState, e: Event): (r: SessionState)
    ensures r.initial == s.initial
    ensures s.phase == Closed ==> r == s
    ensures s.delivered <= r.delivered && |r.delivered| <= |s.delivered| + 1
    ensures s.sent <= r.sent && |r.sent| <= |s.sent| + 1
    ensures |r.sent| == |s.sent| + 1 ==> e.Arrive? && r.delivered == s.delivered + [e.response]
  {
    if s.phase == Closed then s
    else match e
      case Arrive(resp, ack) =>
        var s' := s.(lastVersion := resp.versionInfo, lastNonce := resp.nonce,
                     delivered := s.delivered + [resp]);
        if ack == SendOk then s'.(sent := s.sent + [AckRequest(s.initial, resp)])
        else s'.(phase := Closed)
      case TransportFailed => s.(phase := Closed)
      case Cancelled => s.(phase := Closed)
  }

  /** The events one after the other. */
  function Run(s: SessionState, events: seq<Event>): (r: SessionState)
    ensures r.initial == s.initial
    ensures |r.delivered| <= |s.delivered| + |events|
    ensures |r.sent| <= |s.sent| + |events|
    decreases |events|
  {
    if |events| == 0 then s else Run(Step(s, events[0]), events[1..])
  }

  /** The version and nonce of the last response received, empty before
      the first. */
  function LastVersion(delivered: seq<DiscoveryResponse>): string {
    if |delivered| == 0 then "" else delivered[|delivered| - 1].versionInfo
  }
  function LastNonce(delivered: seq<DiscoveryResponse>): string {
    if |delivered| == 0 then "" else delivered[|delivered| - 1].nonce
  }

  /** The session invariant: the last applied version and nonce are those
      of the last response forwarded; an open session has sent exactly the
      requests the ACK rule induces from the responses forwarded, and a
      closed one a prefix of them (the send that failed is missing). */
  ghost predicate AckConsistent(s: SessionState) {
    && s.lastVersion == LastVersion(s.delivered)
    && s.lastNonce == LastNonce(s.delivered)
    && (s.phase == Streaming ==> s.sent == InducedRequests(s.initial, s.delivered))
    && s.sent <= InducedRequests(s.initial, s.delivered)
  }

  lemma OpenIsAckConsistent(initial: DiscoveryRequest, created: bool, firstSend: SendOutcome)
    requires Open(initial, created, firstSend).Success?
    ensures AckConsistent(Open(initial, created, firstSend).value)
  {
  }

  /** Every event keeps the session invariant. */
  lemma StepKeepsAckConsistent(s: SessionState, e: Event)
    requires AckConsistent(s)
    ensures AckConsistent(Step(s, e))
    ensures Step(s, e).initial == s.initial
  {
    if s.phase == Streaming && e.Arrive? {
      AckRequestsAppend(s.initial, s.delivered, e.response);
      var induced := InducedRequests(s.initial, s.delivered + [e.response]);
      assert induced == InducedRequests(s.initial, s.delivered) + [AckRequest(s.initial, e.response)];
    }
  }

  /** Any run of events keeps the session invariant. */
  lemma {:induction false} RunKeepsAckConsistent(s: SessionState, events: seq<Event>)
    requires AckConsistent(s)
    ensures AckConsistent(Run(s, events))
    ensures Run(s, events).initial == s.initial
    decreases |events|
  {
    if |events| > 0 {
      StepKeepsAckConsistent(s, events[0]);
      RunKeepsAckConsistent(Step(s, events[0]), events[1..]);
    }
  }

  /** A closed session stays as it is: the channel stays closed and no
      further value reaches the caller. */
  lemma {:induction false} ClosedIsTerminal(s: SessionState, events: seq<Event>)
    requires s.phase == Closed
    ensures Run(s, events) == s
    decreases |events|
  {
    if |events| > 0 {
      ClosedIsTerminal(Step(s, events[0]), events[1..]);
    }
  }

  /** Forwarding keeps order and loses nothing: whatever happens, the
      responses forwarded so far are a prefix of the responses forwarded
      later. */
  lemma {:induction false} RunExtendsDelivered(s: SessionState, events: seq<Event>)
    ensures s.delivered <= Run(s, events).delivered
    decreases |events|
  {
    if |events| > 0 {
      RunExtendsDelivered(Step(s, events[0]), events[1..]);
    }
  }

  /** Responses whose acknowledgements all go through. */
  function Arrivals(responses: seq<DiscoveryResponse>): (es: seq<Event>)
    ensures |es| == |responses|
    decreases |responses|
  {
    if |responses| == 0 then [] else [Arrive(responses[0], SendOk)] + Arrivals(responses[1..])
  }

  /** On an open stream whose sends all succeed, the caller receives
      exactly the responses, in arrival order, and the origin server
      receives the first request followed by one acknowledgement per
      response. */
  lemma {:induction false} OpenStreamForwardsAndAcks(initial: DiscoveryRequest, responses: seq<DiscoveryResponse>)
    requires IsKnownTypeUrl(initial.typeUrl)
    ensures
      var s := Run(Open(initial, true, SendOk).value, Arrivals(responses));
      && s.phase == Streaming
      && s.delivered == responses
      && s.sent == InducedRequests(initial, responses)
  {
    var s0 := Open(initial, true, SendOk).value;
    ArrivalsForwardAndAck(s0, responses);
    assert s0.delivered + responses == responses;
    assert s0.sent + AckRequests(initial, responses) == InducedRequests(initial, responses);
  }

  lemma {:induction false} ArrivalsForwardAndAck(s: SessionState, responses: seq<DiscoveryResponse>)
    requires s.phase == Streaming
    ensures Run(s, Arrivals(responses)).phase == Streaming
    ensures Run(s, Arrivals(responses)).delivered == s.delivered + responses
    ensures Run(s, Arrivals(responses)).sent == s.sent + AckRequests(s.initial, responses)
    ensures Run(s, Arrivals(responses)).initial == s.initial
    decreases |responses|
  {
    if |responses| > 0 {
      var r0, rest := responses[0], responses[1..];
      var es := Arrivals(responses);
      assert es[0] == Arrive(r0, SendOk) && es[1..] == Arrivals(rest);
      var s1 := Step(s, es[0]);
      assert s1.phase == Streaming && s1.initial == s.initial;
      assert s1.delivered == s.delivered + [r0];
      assert s1.sent == s.sent + [AckRequest(s.initial, r0)];
      assert Run(s, es) == Run(s1, Arrivals(rest));
      ArrivalsForwardAndAck(s1, rest);
      assert responses == [r0] + rest;
      assert AckRequests(s.initial, responses) == [AckRequest(s.initial, r0)] + AckRequests(s.initial, rest);
    }
  }

  /** If the first send fails or blocks past the timeout, `OpenStream`
      still returns a channel and no error, but the channel is closed and
      yields no value, whatever arrives afterwards. */
  lemma {:induction false} FailedFirstSendDeliversNothing(initial: DiscoveryRequest, firstSend: SendOutcome, events: seq<Event>)
    requires IsKnownTypeUrl(initial.typeUrl) && firstSend != SendOk
    ensures Open(initial, true, firstSend).Success?
    ensures Run(Open(initial, true, firstSend).value, events).phase == Closed
    ensures Run(Open(initial, true, firstSend).value, events).delivered == []
  {
    ClosedIsTerminal(Open(initial, true, firstSend).value, events);
  }

  // ---------------------------------------------------------------------
  // The session object

  /** A stream session, its state in fields that each event updates. */
  class StreamSession {
    const initial: DiscoveryRequest
    var streaming: bool
    var lastVersion: string
    var lastNonce: string
    var sent: seq<DiscoveryRequest>
    var delivered: seq<DiscoveryResponse>

    /** The state the fields stand for. */
    function View(): SessionState
      reads this
    {
      SessionState(initial, if streaming then Streaming else Closed,
                   lastVersion, lastNonce, sent, delivered)
    }

    ghost predicate Valid()
      reads this
    {
      AckConsistent(View())
    }

    /** The session `OpenStream` starts once the stream is created: the
        first request is sent, and if that send fails the session is
        closed at once. */
    constructor Start(initial: DiscoveryRequest, firstSend: SendOutcome)
      ensures this.initial == initial && delivered == []
      ensures lastVersion == "" && lastNonce == ""
      ensures streaming <==> firstSend == SendOk
      ensures sent == if firstSend == SendOk then [FirstRequest(initial)] else []
      ensures Valid()
    {
      this.initial := initial;
      streaming := firstSend == SendOk;
      lastVersion, lastNonce := "", "";
      sent := if firstSend == SendOk then [FirstRequest(initial)] else [];
      delivered := [];
    }

    /** A response arrives: on an open session it is forwarded, recorded as
        the last applied version and nonce, and acknowledged. */
    method OnResponse(resp: DiscoveryResponse, ack: SendOutcome)
      requires Valid()
      modifies this
      ensures Valid()
      ensures !old(streaming) ==> View() == old(View())
      ensures old(streaming) ==>
                && delivered == old(delivered) + [resp]
                && lastVersion == resp.versionInfo && lastNonce == resp.nonce
                && (streaming <==> ack == SendOk)
                && sent == if ack == SendOk then old(sent) + [AckRequest(initial, resp)] else old(sent)
      ensures View() == Step(old(View()), Arrive(resp, ack))
    {
      StepKeepsAckConsistent(View(), Arrive(resp, ack));
      if streaming {
        delivered := delivered + [resp];
        lastVersion, lastNonce := resp.versionInfo, resp.nonce;
        if ack == SendOk {
          sent := sent + [AckRequest(initial, resp)];
        } else {
          streaming := false;
        }
      }
    }

    /** The transport fails or ends: the response channel closes. */
    method OnTransportError()
      requires Valid()
      modifies this
      ensures Valid() && !streaming
      ensures sent == old(sent) && delivered == old(delivered)
      ensures View() == Step(old(View()), TransportFailed)
    {
      StepKeepsAckConsistent(View(), TransportFailed);
      streaming := false;
    }

    /** The caller's cancel function; calling it again changes nothing. */
    method Cancel()
      requires Valid()
      modifies this
      ensures Valid() && !streaming
      ensures sent == old(sent) && delivered == old(delivered)
      ensures View() == Step(old(View()), Cancelled)
    {
      StepKeepsAckConsistent(View(), Cancelled);
      streaming := false;
    }

    /** Applies `events` in order. */
    method Drive(events: seq<Event>)
      requires Valid()
      modifies this
      ensures Valid()
      ensures View() == Run(old(View()), events)
    {
      for i := 0 to |events|
        invariant Valid()
        invariant View() == Run(old(View()), events[..i])
      {
        RunAppend(old(View()), events[..i], events[i]);
        assert events[..i + 1] == events[..i] + [events[i]];
        match events[i]
        case Arrive(resp, ack) => OnResponse(resp, ack);
        case TransportFailed => OnTransportError();
        case Cancelled => Cancel();
      }
      assert events[..|events|] == events;
    }
  }

  lemma {:induction false} RunAppend(s: SessionState, events: seq<Event>, e: Event)
    ensures Run(s, events + [e]) == Step(Run(s, events), e)
    decreases |events|
  {
    if |events| == 0 {
      assert events + [e] == [e];
    } else {
      assert (events + [e])[1..] == events[1..] + [e];
      RunAppend(Step(s, events[0]), events[1..], e);
    }
  }

  /** `OpenStream`: the type-URL gate, then stream creation, then the
      session.  Exactly one of the channel and the error is returned. */
  method OpenStream(initial: DiscoveryRequest, created: bool, firstSend: SendOutcome)
    returns (session: StreamSession?, err: Option<StreamError>)
    ensures (session == null) <==> err.Some?
    ensures Open(initial, created, firstSend).Failure? ==>
              err == Some(Open(initial, created, firstSend).error)
    ensures Open(initial, created, firstSend).Success? ==>
              session != null && fresh(session) && session.Valid() &&
              session.View() == Open(initial, created, firstSend).value
  {
    if !IsKnownTypeUrl(initial.typeUrl) {
      return null, Some(UnsupportedResource(initial.typeUrl));
    }
    if !created {
      return null, Some(StreamCreationFailed);
    }
    session := new StreamSession.Start(initial, firstSend);
    err := None;
  }

  /** The decimal digits of `n`, as the tests' strconv.Itoa writes them. */
  function Itoa(n: nat): string
    decreases n
  {
    if n < 10 then [(48 + n) as char] else Itoa(n / 10) + [(48 + n % 10) as char]
  }

  /** A listener response whose version and nonce are both `tag`. */
  function Tagged(tag: string): DiscoveryResponse {
    DiscoveryResponse(tag, [], ListenerType, tag)
  }

  /** The first `n` tagged responses of the next-request test, in order. */
  function TaggedRun(n: nat): (rs: seq<DiscoveryResponse>)
    ensures |rs| == n
  {
    if n == 0 then [] else TaggedRun(n - 1) + [Tagged(Itoa(n - 1))]
  }

  lemma {:induction false} TaggedRunAt(n: nat, k: nat)
    requires k < n
    ensures TaggedRun(n)[k] == Tagged(Itoa(k))
  {
    if k < n - 1 {
      TaggedRunAt(n - 1, k);
    }
  }

  /** The requests the ACK rule induces for the five tagged responses of
      the next-request test: the first carries the caller's node and type
      URL with empty version and nonce, and request i+1 echoes "i". */
  lemma TaggedResponsesInduce(initial: DiscoveryRequest)
    ensures |InducedRequests(initial, TaggedRun(5))| == 6
    ensures InducedRequests(initial, TaggedRun(5))[0].versionInfo == ""
    ensures InducedRequests(initial, TaggedRun(5))[0].responseNonce == ""
    ensures SameSubscription(InducedRequests(initial, TaggedRun(5))[0], initial)
    ensures forall i :: 0 <= i < 5 ==>
              TaggedRun(5)[i].versionInfo == Itoa(i) && TaggedRun(5)[i].nonce == Itoa(i)
    ensures forall i :: 0 <= i < 5 ==>
              InducedRequests(initial, TaggedRun(5))[i + 1].versionInfo == Itoa(i) &&
              InducedRequests(initial, TaggedRun(5))[i + 1].responseNonce == Itoa(i)
  {
    var got := TaggedRun(5);
    InducedRequestsFollowAckRule(initial, got);
    forall i | 0 <= i < 5
      ensures got[i].versionInfo == Itoa(i) && got[i].nonce == Itoa(i)
      ensures InducedRequests(initial, got)[i + 1].versionInfo == Itoa(i)
      ensures InducedRequests(initial, got)[i + 1].responseNonce == Itoa(i)
    {
      TaggedRunAt(5, i);
    }
  }

  /** The next-request test: a listener stream receives five responses
      whose version and nonce are "0" to "4".  The caller gets them in that
      order; the first request sent carries the caller's node and type URL
      with empty version and nonce, and request i+1 echoes response i. */
  method NextRequestScenario(node: Node) returns (sent: seq<DiscoveryRequest>, got: seq<DiscoveryResponse>)
    ensures |got| == 5 && |sent| == 6
    ensures forall i :: 0 <= i < 5 ==> got[i].versionInfo == Itoa(i) && got[i].nonce == Itoa(i)
    ensures sent[0].versionInfo == "" && sent[0].responseNonce == ""
    ensures sent[0].node == node && sent[0].typeUrl == ListenerType
    ensures forall i :: 0 <= i < 5 ==>
              sent[i + 1].versionInfo == Itoa(i) && sent[i + 1].responseNonce == Itoa(i)
  {
    var initial := DiscoveryRequest("", node, [], ListenerType, "", "");
    var session, err := OpenStream(initial, true, SendOk);
    for i := 0 to 5
      invariant session.Valid() && session.streaming && session.initial == initial
      invariant session.delivered == TaggedRun(i)
    {
      session.OnResponse(Tagged(Itoa(i)), SendOk);
    }
    sent, got := session.sent, session.delivered;
    assert sent == InducedRequests(initial, got);
    TaggedResponsesInduce(initial);
  }
}
