/** The request config a caller hands to the transport and the response
    envelope it gets back, shaped like AngularJS `$http` configs and
    responses. */
module Requests {
  import opened Js

  /** Request identifiers: the UUID strings `generateUuid` produces. */
  type Id = string

  /** The `cache` property of a request config: absent or falsy, a truthy
      non-object (the transport's default cache is used), or a cache instance
      supplied by the caller (identified by reference). */
  datatype CacheDirective = NoCache | DefaultCache | SuppliedCache(store: nat)

  /** A request config. `timeout` is present only when the property is a
      number; `other` holds every remaining property (data, headers, params,
      ...), and entries in it under the four named keys are shadowed. */
  datatype RequestConfig = RequestConfig(
    httpMethod: string,
    url: string,
    cache: CacheDirective,
    timeout: Option<int>,
    other: map<string, Json>)

  /** The `$http`-like response envelope: the request id, the response data,
      the status, a header map and the original request config. */
  datatype Response = Response(
    id: Id,
    data: Json,
    status: int,
    headers: map<string, Json>,
    config: RequestConfig)

  /** A status settles a request as a success exactly in the 2xx range. */
  predicate IsSuccessStatus(status: int)
  {
    200 <= status < 300
  }
}
