/** The v2 request/response envelope and the v2 cache adapter
    (internal/app/transport/v2.go). */
module TransportV2 {
  import opened Wrappers
  import opened Discovery

  /** The shared aggregation cache the adapter wraps; it is an external
      collaborator, identified here only by a handle. */
  datatype SharedCache = SharedCache(id: nat)

  /** A response channel or a cancel function handed out by `CreateWatch`;
      opaque handles. */
  datatype Channel = Channel(id: nat)
  datatype CancelFunc = CancelFunc(id: nat)

  /** The error text of the unsupported REST entry point. */
  const FetchNotSupported: string := "Fetch is not supported"

  /** The v2 cache adapter.  `NewV2(cache)` is the constructor `V2(cache)`. */
  datatype V2 = V2(cache: SharedCache) {

    /** The streaming entry point; it hands out no channel and no cancel
        function, whatever the request. */
    function CreateWatch(req: DiscoveryRequest): (r: (Option<Channel>, Option<CancelFunc>))
      ensures r.0.None? && r.1.None?
    {
      (None, None)
    }

    /** The REST entry point is unsupported: it fails for every request,
        with no response. */
    function Fetch(req: DiscoveryRequest): (r: Result<CacheResponse, string>)
      ensures r.Failure? && r.error == FetchNotSupported
    {
      Failure(FetchNotSupported)
    }
  }

  /** The v2 implementation of the version-agnostic Request: it wraps one
      v2 discovery request. */
  datatype RequestV2 = RequestV2(r: DiscoveryRequest)

  /** The v2 Response: the request it answers, the resources in both forms,
      and the payload version. */
  datatype ResponseV2 = ResponseV2(
    req: RequestV2,
    resources: seq<Resource>,
    marshaledResources: seq<MarshaledResource>,
    version: string)

  /** Wraps `r`, and nothing else. */
  function NewRequestV2(r: DiscoveryRequest): (w: RequestV2)
    ensures w.r == r
  {
    RequestV2(r)
  }

  /** Packages the receiver request with a payload version and the resources.
      The receiver is kept as the response's request, the version argument
      as its version, and both resource sequences unchanged and in order. */
  function CreateResponse(
    r: RequestV2,
    payloadVersion: string,
    proto: seq<Resource>,
    marshaledResources: seq<MarshaledResource>): (resp: ResponseV2)
    ensures resp.req == r
    ensures resp.version == payloadVersion
    ensures resp.resources == proto
    ensures resp.marshaledResources == marshaledResources
  {
    ResponseV2(r, proto, marshaledResources, payloadVersion)
  }

  /** Wrapping loses nothing: distinct discovery requests give distinct
      envelope requests. */
  lemma NewRequestV2Injective(a: DiscoveryRequest, b: DiscoveryRequest)
    ensures NewRequestV2(a) == NewRequestV2(b) <==> a == b
  {
  }

  /** Packaging loses nothing: two responses are equal exactly when they
      were built from the same request, version and resources. */
  lemma CreateResponseInjective(
    r1: RequestV2, v1: string, p1: seq<Resource>, m1: seq<MarshaledResource>,
    r2: RequestV2, v2: string, p2: seq<Resource>, m2: seq<MarshaledResource>)
    ensures CreateResponse(r1, v1, p1, m1) == CreateResponse(r2, v2, p2, m2)
            <==> r1 == r2 && v1 == v2 && p1 == p2 && m1 == m2
  {
  }
}
