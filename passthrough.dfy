/** The forwarding rule that `define_grpc_passthrough!` expands to for every
    light-wallet RPC the proxy does not serve itself: build a client bound to
    the lightwalletd URI and call the same-named method with the same
    arguments, handing back whatever that call returns. */
module Passthrough {
  import opened Wrappers
  import opened GrpcConnector

  /** The gRPC server's configuration (`ProxyClient`); the online flag it
      also carries plays no part in forwarding. */
  datatype ProxyClient = ProxyClient(lightwalletdUri: Uri, zebradUri: Uri)

  /** Why a forwarded call panicked instead of returning. */
  datatype ForwardPanic = ClientCreationFailed | RewriteFailed(reason: Panic)

  datatype Forwarded<+R> = Replied(reply: R) | Aborted(reason: ForwardPanic)

  /** The handler for method `name`. `stubUri` is the URI the generated stub
      gives its request; `serve` is lightwalletd's behaviour. A `Result`
      returned by the call (success or `Status`) is passed on untouched. */
  function Forward<A, R>(server: ProxyClient, name: string, args: A, stubUri: Uri,
                         serve: (Transport, Uri, string, A) -> R): (o: Forwarded<R>)
    ensures o != Aborted(ClientCreationFailed)
    ensures o.Replied? <==> server.lightwalletdUri.scheme.Some? && server.lightwalletdUri.authority.Some?
                            && stubUri.pathAndQuery.Some?
    ensures o.Replied? ==>
      o.reply == serve(ChooseTransport(server.lightwalletdUri.scheme),
                       Uri(server.lightwalletdUri.scheme, server.lightwalletdUri.authority, stubUri.pathAndQuery),
                       name, args)
  {
    match GetClient(New(server.lightwalletdUri))
    case Err(_) => Aborted(ClientCreationFailed)
    case Ok(client) =>
      match Call(client, name, args, stubUri, serve)
      case Panicked(p) => Aborted(RewriteFailed(p))
      case Returned(reply) => Replied(reply)
  }

  /** Forwarding depends on the lightwalletd URI only through its scheme
      and authority: its path-and-query is dropped by the rewrite, and the
      zebrad URI is never consulted. */
  lemma ForwardDependsOnlyOnEndpoint<A, R>(s1: ProxyClient, s2: ProxyClient, name: string, args: A, stubUri: Uri,
                                           serve: (Transport, Uri, string, A) -> R)
    requires s1.lightwalletdUri.scheme == s2.lightwalletdUri.scheme
    requires s1.lightwalletdUri.authority == s2.lightwalletdUri.authority
    ensures Forward(s1, name, args, stubUri, serve) == Forward(s2, name, args, stubUri, serve)
  {
  }

  /** The handler has no per-method branching: two methods whose stubs
      either both carry a path or both lack one, and which lightwalletd
      answers alike at those paths, are forwarded alike. */
  lemma ForwardUniformInName<A, R>(server: ProxyClient, m1: string, m2: string, args: A, s1: Uri, s2: Uri,
                                   serve: (Transport, Uri, string, A) -> R)
    requires s1.pathAndQuery.Some? <==> s2.pathAndQuery.Some?
    requires forall t, sch, auth :: serve(t, Uri(sch, auth, s1.pathAndQuery), m1, args)
                                    == serve(t, Uri(sch, auth, s2.pathAndQuery), m2, args)
    ensures Forward(server, m1, args, s1, serve) == Forward(server, m2, args, s2, serve)
  {
  }
}
