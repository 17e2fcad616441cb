/** The `GrpcConnector` of zingo-rpc: a value bound to one backend URI that
    builds gRPC clients whose every outgoing request is re-addressed to that
    backend. A URI is the triple of optional components of section 3 of
    RFC 3986 that the `http` crate exposes: scheme, authority and
    path-and-query. */
module GrpcConnector {
  import opened Wrappers

  datatype Uri = Uri(scheme: Option<string>, authority: Option<string>, pathAndQuery: Option<string>)

  /** Which `unwrap` in the request-rewrite closure panics. */
  datatype Panic = MissingScheme | MissingAuthority | MissingPathAndQuery

  /** The transport a client is built over: the rustls connector with
      HTTP/2 enabled through ALPN, or a plain TCP connector restricted to
      HTTP/2 (prior knowledge, no fall-back to HTTP/1.1). */
  datatype Transport = Tls(http2Enabled: bool) | Plain(http2Only: bool)

  /** The generated stub a client wraps: the light-wallet service or the
      darkside test service. */
  datatype Stub = CompactTxStreamer | DarksideStreamer

  /** A client: a stub over a transport, whose requests are re-addressed to `target`. */
  datatype Client = Client(stub: Stub, transport: Transport, target: Uri)

  /** Errors `get_client` declares; neither `get_client` nor
      `get_darkside_client` ever returns `Err`. */
  datatype BuildError = BuildError(message: string)

  datatype Connector = Connector(uri: Uri)

  /** `GrpcConnector::new`: binds the connector to `uri`, which `uri()` gives back. */
  function New(uri: Uri): (c: Connector)
    ensures c.uri == uri
  {
    Connector(uri)
  }

  /** The branch `get_client` and `get_darkside_client` take on the bound scheme. */
  function ChooseTransport(scheme: Option<string>): (t: Transport)
    ensures t.Tls? <==> scheme == Some("https")
    ensures t.Tls? ==> t.http2Enabled
    ensures t.Plain? ==> t.http2Only
  {
    if scheme == Some("https") then Tls(http2Enabled := true) else Plain(http2Only := true)
  }

  /** The `map_request` closure: scheme and authority of the bound URI,
      path-and-query of the request, each taken with `unwrap` in that order. */
  function RewriteUri(bound: Uri, request: Uri): (r: Result<Uri, Panic>)
    ensures r.Ok? <==> bound.scheme.Some? && bound.authority.Some? && request.pathAndQuery.Some?
    ensures r.Ok? ==> r.value.scheme == bound.scheme && r.value.authority == bound.authority
    ensures r.Ok? ==> r.value.pathAndQuery == request.pathAndQuery
    ensures r == Err(MissingScheme) <==> bound.scheme.None?
    ensures r == Err(MissingAuthority) <==> bound.scheme.Some? && bound.authority.None?
  {
    if bound.scheme.None? then Err(MissingScheme)
    else if bound.authority.None? then Err(MissingAuthority)
    else if request.pathAndQuery.None? then Err(MissingPathAndQuery)
    else Ok(Uri(bound.scheme, bound.authority, request.pathAndQuery))
  }

  /** The request's own scheme and authority play no part in the rewrite:
      only its path-and-query does. */
  lemma RewriteIgnoresRequestEndpoint(bound: Uri, r1: Uri, r2: Uri)
    requires r1.pathAndQuery == r2.pathAndQuery
    ensures RewriteUri(bound, r1) == RewriteUri(bound, r2)
  {
  }

  /** Re-addressing an already re-addressed request changes nothing. */
  lemma RewriteIdempotent(bound: Uri, request: Uri)
    requires RewriteUri(bound, request).Ok?
    ensures RewriteUri(bound, RewriteUri(bound, request).value) == RewriteUri(bound, request)
  {
  }

  /** A URI written out as in section 5.3 of RFC 3986 (no fragment). */
  function Format(u: Uri): string {
    (if u.scheme.Some? then u.scheme.value + ":" else "")
    + (if u.authority.Some? then "//" + u.authority.value else "")
    + (if u.pathAndQuery.Some? then u.pathAndQuery.value else "")
  }

  /** The rewritten URI reads as `scheme://authority` of the backend followed
      by the request's path-and-query, verbatim. */
  lemma RewriteRendersBackendPlusPath(bound: Uri, request: Uri)
    requires RewriteUri(bound, request).Ok?
    ensures Format(RewriteUri(bound, request).value)
         == bound.scheme.value + "://" + bound.authority.value + request.pathAndQuery.value
  {
  }

  /** `get_client`: a light-wallet client over the transport the bound
      scheme selects, re-addressing requests to the bound URI. It never
      returns `Err`: both its TLS and its plain branch return `Ok`. */
  function GetClient(c: Connector): (r: Result<Client, BuildError>)
    ensures r.Ok?
    ensures r.value.stub == CompactTxStreamer && r.value.target == c.uri
    ensures r.value.transport.Tls? <==> c.uri.scheme == Some("https")
    ensures r.value.transport.Plain? ==> r.value.transport.http2Only
  {
    Ok(Client(CompactTxStreamer, ChooseTransport(c.uri.scheme), c.uri))
  }

  /** `get_darkside_client`: the same branches with the darkside stub. */
  function GetDarksideClient(c: Connector): (r: Result<Client, BuildError>)
    ensures r.Ok?
    ensures r.value.stub == DarksideStreamer && r.value.target == c.uri
    ensures r.value.transport.Tls? <==> c.uri.scheme == Some("https")
  {
    Ok(Client(DarksideStreamer, ChooseTransport(c.uri.scheme), c.uri))
  }

  /** Both builders make the same transport choice and the same rewrite;
      only the stub differs. */
  lemma DarksideMatchesClient(c: Connector)
    ensures GetDarksideClient(c).value.transport == GetClient(c).value.transport
    ensures GetDarksideClient(c).value.target == GetClient(c).value.target
    ensures GetClient(c).value.transport == ChooseTransport(c.uri.scheme)
  {
  }

  /** What calling a client yields: the server's reply, or a panic of the
      rewrite closure before anything is sent. */
  datatype Outcome<+R> = Returned(value: R) | Panicked(reason: Panic)

  /** A call through a client. The stub builds a request addressed to
      `stubUri`; the rewrite layer re-addresses it; `serve` is the backend's
      behaviour for a request reaching it over a transport at a URI. */
  function Call<A, R>(client: Client, name: string, args: A, stubUri: Uri,
                      serve: (Transport, Uri, string, A) -> R): (o: Outcome<R>)
    ensures o.Panicked? <==> RewriteUri(client.target, stubUri).Err?
    ensures o.Returned? ==> o.value == serve(client.transport, RewriteUri(client.target, stubUri).value, name, args)
  {
    match RewriteUri(client.target, stubUri)
    case Err(p) => Panicked(p)
    case Ok(u) => Returned(serve(client.transport, u, name, args))
  }

  /** An HTTP request as the rewrite layer sees it: the closure owns the
      request and overwrites its URI in place. */
  class Request {
    var uri: Uri
    var headers: seq<(string, string)>
    var body: seq<bv8>

    constructor (uri: Uri, headers: seq<(string, string)>, body: seq<bv8>)
      ensures this.uri == uri && this.headers == headers && this.body == body
    {
      this.uri := uri;
      this.headers := headers;
      this.body := body;
    }

    /** `*req.uri_mut() = uri`: on success only the URI changes; on a panic
        the request is left as it was. */
    method MapRequest(bound: Uri) returns (panic: Option<Panic>)
      modifies this
      ensures panic.None? <==> RewriteUri(bound, old(uri)).Ok?
      ensures panic.Some? ==> RewriteUri(bound, old(uri)) == Err(panic.value) && uri == old(uri)
      ensures panic.None? ==> uri == RewriteUri(bound, old(uri)).value
      ensures headers == old(headers) && body == old(body)
    {
      var r := RewriteUri(bound, uri);
      match r
      case Err(p) =>
        panic := Some(p);
      case Ok(u) =>
        uri := u;
        panic := None;
    }
  }
}
