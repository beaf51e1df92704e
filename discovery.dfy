/** The discovery-protocol records the relay's core passes around.  They come
    from the go-control-plane library, which is not part of this model; only
    the fields the core reads or writes are kept, and payloads are opaque. */
module Discovery {

  /** The identity of the Envoy node that asks; opaque to the relay. */
  datatype Node = Node(id: string)

  /** One typed resource (a listener, a cluster, ...); opaque to the relay. */
  datatype Resource = Resource(name: string, body: seq<bv8>)

  /** A resource already marshaled to its wire bytes. */
  type MarshaledResource = seq<bv8>

  /** A discovery request.  `versionInfo` and `responseNonce` are the ACK
      fields: they echo the last response received on the stream, and are
      empty on the first request of a stream. */
  datatype DiscoveryRequest = DiscoveryRequest(
    versionInfo: string,
    node: Node,
    resourceNames: seq<string>,
    typeUrl: string,
    responseNonce: string,
    errorDetail: string)

  /** A discovery response as the origin server sends it. */
  datatype DiscoveryResponse = DiscoveryResponse(
    versionInfo: string,
    resources: seq<Resource>,
    typeUrl: string,
    nonce: string)

  /** The response record of the go-control-plane cache (`gcp.Response`):
      the request it answers, the version of its contents, and the
      resources.  This is what a watch's channel carries. */
  datatype CacheResponse = CacheResponse(
    request: DiscoveryRequest,
    version: string,
    resources: seq<Resource>)

  /** The type URLs of the four resource kinds of the v2 API
      (resource.ListenerType, ClusterType, RouteType, EndpointType of
      go-control-plane's pkg/resource/v2). */
  const ListenerType: string := "type.googleapis.com/envoy.api.v2.Listener"
  const ClusterType: string := "type.googleapis.com/envoy.api.v2.Cluster"
  const RouteType: string := "type.googleapis.com/envoy.api.v2.RouteConfiguration"
  const EndpointType: string := "type.googleapis.com/envoy.api.v2.ClusterLoadAssignment"
}
