/** The two providers: the transport provider's `$get`, which builds the
    configured transport or refuses an unknown kind, and the
    `httpOverWebSocket` service, which routes each request either to plain
    `$http` or to the transport. URL patterns are regular expressions in the
    source; here a pattern is a literal that must start the URL (`/^.../`)
    or occur anywhere in it. */
module Service {
  import opened Js
  import opened Requests
  import opened Transports

  /* ---------------------------------------------------------------------
     Transport provider
     --------------------------------------------------------------------- */

  /** The transport kind and options the transport provider starts with. */
  const DefaultKind: string := "primus"
  const DefaultOptions: Options := Options(Some(10000), Some(100))

  /** `$get` of the transport provider: a Primus transport for the kind
      "primus"; any other kind is a configuration error. */
  function GetTransport(kind: string, options: Options): (r: Result<Transport>)
    ensures r.Success? <==> kind == "primus"
    ensures r.Success? ==> r.value == NewTransport(options)
    ensures r.Failure? ==> r.error == InvalidTransport(kind)
  {
    if kind == "primus" then Success(NewTransport(options))
    else Failure(InvalidTransport(kind))
  }

  /** Left unconfigured, the provider builds a transport with a 10 second
      request timeout, checked every 100 milliseconds, and nothing pending. */
  lemma DefaultProviderTransport()
    ensures GetTransport(DefaultKind, DefaultOptions).Success?
    ensures var t := GetTransport(DefaultKind, DefaultOptions).value;
      t.settings == Settings(10000, 100) && t.requests == map[] && Valid(t)
  {
  }

  /* ---------------------------------------------------------------------
     Routing
     --------------------------------------------------------------------- */

  datatype Pattern = Anchored(prefix: string) | Unanchored(fragment: string)

  /** `fragment` occurs in `url` starting at position `i`. */
  predicate OccursAt(fragment: string, url: string, i: int)
  {
    0 <= i && i + |fragment| <= |url| && url[i..i + |fragment|] == fragment
  }

  predicate Matches(p: Pattern, url: string)
  {
    match p
    case Anchored(prefix) => prefix <= url
    case Unanchored(f) => exists i | 0 <= i <= |url| - |f| :: OccursAt(f, url, i)
  }

  /** Where a request is sent. */
  datatype Route = ViaHttp | ViaTransport

  /** The routing of the `httpOverWebSocket` service: the exclude patterns
      are tried first and any match sends the request to `$http`; then any
      include match sends it to the transport; a URL that matches nothing
      goes to `$http`. */
  method RouteRequest(url: string, excludes: seq<Pattern>, includes: seq<Pattern>) returns (r: Route)
    ensures r == ViaTransport <==>
              (forall i :: 0 <= i < |excludes| ==> !Matches(excludes[i], url))
              && (exists j :: 0 <= j < |includes| && Matches(includes[j], url))
  {
    var index := 0;
    while index < |excludes|
      invariant 0 <= index <= |excludes|
      invariant forall i :: 0 <= i < index ==> !Matches(excludes[i], url)
    {
      if Matches(excludes[index], url) {
        return ViaHttp;
      }
      index := index + 1;
    }
    index := 0;
    while index < |includes|
      invariant 0 <= index <= |includes|
      invariant forall j :: 0 <= j < index ==> !Matches(includes[j], url)
    {
      if Matches(includes[index], url) {
        return ViaTransport;
      }
      index := index + 1;
    }
    return ViaHttp;
  }

  /** The result of calling the service: the config handed on to `$http`
      unchanged, or what the transport's `send` returned. */
  datatype Dispatch = PlainHttp(config: RequestConfig) | OverSocket(sent: Sent)

  /** The `httpOverWebSocket` service function. */
  method HttpOverWebSocket(t: Transport, cfg: RequestConfig, excludes: seq<Pattern>,
                           includes: seq<Pattern>, newId: Id, now: int) returns (d: Dispatch)
    requires Fresh(t, newId)
    ensures d.OverSocket? <==>
              (forall i :: 0 <= i < |excludes| ==> !Matches(excludes[i], cfg.url))
              && (exists j :: 0 <= j < |includes| && Matches(includes[j], cfg.url))
    ensures d.OverSocket? ==> d.sent == Send(t, cfg, newId, now)
    ensures d.PlainHttp? ==> d.config == cfg
  {
    var route := RouteRequest(cfg.url, excludes, includes);
    if route == ViaTransport {
      d := OverSocket(Send(t, cfg, newId, now));
    } else {
      d := PlainHttp(cfg);
    }
  }

  /** With no exclusions and the single include pattern `/^\/overWebSocket/`,
      "/overWebSocket" goes over the socket and "/notOverWebSocket" goes to
      `$http`. */
  method RoutingExample() returns (inside: Route, outside: Route)
    ensures inside == ViaTransport && outside == ViaHttp
  {
    var includes := [Anchored("/overWebSocket")];
    assert Matches(includes[0], "/overWebSocket");
    assert !Matches(includes[0], "/notOverWebSocket") by {
      assert "/notOverWebSocket"[1] != "/overWebSocket"[1];
    }
    inside := RouteRequest("/overWebSocket", [], includes);
    outside := RouteRequest("/notOverWebSocket", [], includes);
  }
}
