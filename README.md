# zingo-proxy core in Dafny

A model of the request-routing and start-up logic of zingo-proxy, a gRPC
gateway between light-wallet clients and a Zcash node:

- **`GrpcConnector`** (`zingo-rpc/src/utils.rs`). A connector is bound to one
  backend URI. `get_client` and `get_darkside_client` pick a transport from the
  bound scheme. `"https"` selects rustls with HTTP/2 enabled; any other scheme,
  or none, selects plain TCP restricted to HTTP/2. Both wrap the transport in a
  `map_request` layer. That layer overwrites each request's URI with the bound
  scheme and authority and the request's own path-and-query. A URI is the
  triple of optional components of section 3 of RFC 3986.
- **Passthrough** (`define_grpc_passthrough!`). Every RPC the proxy does not
  serve itself builds a client to lightwalletd, calls the same-named method with
  the same arguments, and returns that call's `Result` untouched.
- **Lifecycle** (`zingo-proxyd/src/proxy.rs`). `spawn_proxy` runs four steps in
  order: the node check, the gRPC server spawn, the health check, and (in the
  default build) the Nym server. `wait_on_grpc_startup` makes at most three
  probes of `http://localhost:{port}/`. They are separated by interval ticks. It
  clears the shared `online` flag and exits the process with status 1 when no
  probe answers. `close_proxy` clears the flag.

Modules: `Wrappers` (Option, Result), `Decimal` (the decimal spelling of a
`u16` port, with its parser), `GrpcConnector`, `Passthrough`, `Proxy`.

The parts of the source that change state are modelled with state:
- The in-place URI overwrite is `GrpcConnector.Request.MapRequest` on a
  request object.
- The retry loop is a `while` loop in `Proxy.ProxyProcess.WaitOnGrpcStartup`.
- The flag is the `online` field of `Proxy.ProxyProcess`.

Each method except `CloseProxy` is proved against a specification function (`RewriteUri`,
`WaitEvents`/`WaitExit`, `SpawnEvents`), and the lemmas state the properties
of those functions.

These parts of the environment become parameters:
- Probe results are an oracle `probes: seq<ProbeOutcome>` of length 3.
  `probes[k]` is how the probe made while the `attempts` counter holds `k`
  ends.
- The node check's result is `nodeOk`.
- The Nym server's address is `nymAddr`.
- The cargo feature `nym_poc` is `build: Build`.
- Lightwalletd's behaviour is a function `serve` from transport, URI, method
  name and arguments to a reply.

Ticks, spawns, flag stores, the 2-second sleep and the process exit are
recorded as events in a ghost `trace`.

Three behaviours of the code, each modelled as written:
- `get_client`/`get_darkside_client` are declared to return a `Result`, but
  neither branch ever returns `Err`. A malformed bound URI is not reported when
  the client is built. It panics inside the rewrite closure when a request is
  sent (`GrpcConnector.GetClient` ensures `r.Ok?`; `GrpcConnector.Call` shows
  the panic).
- The health check does not always probe the proxy's own port. Under
  `nym_poc` it probes lightwalletd's port (`Proxy.HealthPort`).
- Only the plain branch is HTTP/2-only. The TLS branch enables HTTP/2
  through ALPN and does not forbid HTTP/1.1.

## Model

| member | source | states |
|---|---|---|
| `GrpcConnector.New` | zingo-rpc/src/utils.rs:65-71 | the connector keeps the URI it was built with, and `uri()` gives it back |
| `GrpcConnector.ChooseTransport` | zingo-rpc/src/utils.rs:82-134 | TLS exactly when the scheme is `Some("https")`, with HTTP/2 enabled; every other scheme, including none, gives plain HTTP/2-only |
| `GrpcConnector.RewriteUri` | zingo-rpc/src/utils.rs:116-127 | the rewrite succeeds iff the bound URI has a scheme and an authority and the request has a path-and-query; the result carries the bound scheme and authority and the request's path-and-query; a missing scheme panics first, then a missing authority, then a missing path |
| `GrpcConnector.RewriteIgnoresRequestEndpoint` | zingo-rpc/src/utils.rs:116-124 | two requests with the same path-and-query are re-addressed identically, whatever scheme and authority they carried |
| `GrpcConnector.RewriteIdempotent` | zingo-rpc/src/utils.rs:116-127 | re-addressing an already re-addressed request changes nothing |
| `GrpcConnector.RewriteRendersBackendPlusPath` | zingo-rpc/src/utils.rs:117-124 | the rewritten URI reads `scheme://authority` of the backend followed by the request's path-and-query, verbatim |
| `GrpcConnector.GetClient` | zingo-rpc/src/utils.rs:73-156 | building never fails; the client wraps the light-wallet stub, targets the bound URI, and uses TLS iff the scheme is `https`, HTTP/2-only otherwise |
| `GrpcConnector.GetDarksideClient` | zingo-rpc/src/utils.rs:158-241 | building never fails; the client wraps the darkside stub, targets the bound URI, and uses TLS iff the scheme is `https` |
| `GrpcConnector.DarksideMatchesClient` | zingo-rpc/src/utils.rs:158-241 | the darkside builder makes the same transport choice and the same rewrite target as `get_client`; only the stub differs |
| `GrpcConnector.Call` | zingo-rpc/src/utils.rs:114-131 | a call through a client panics iff the rewrite panics, and otherwise returns the backend's reply to the rewritten request over the client's transport |
| `GrpcConnector.Request.MapRequest` | zingo-rpc/src/utils.rs:116-127 | the request's URI is overwritten in place with the rewritten URI; headers and body are unchanged; on a panic the request is left as it was |
| `Passthrough.Forward` | zingo-rpc/src/utils.rs:39-47 | a forwarded call never fails at client creation; it replies iff the lightwalletd URI has a scheme and authority and the stub's request has a path; the reply is exactly lightwalletd's answer for the same method and arguments at the lightwalletd scheme and authority, over the transport its scheme selects |
| `Passthrough.ForwardDependsOnlyOnEndpoint` | zingo-rpc/src/utils.rs:40-45 | forwarding depends on the lightwalletd URI only through its scheme and authority (its path-and-query is replaced by the rewrite at zingo-rpc/src/utils.rs:116-122), and never on the zebrad URI |
| `Passthrough.ForwardUniformInName` | zingo-rpc/src/utils.rs:18-51 | the handler has no per-method branching: two methods with their own stub paths, both present or both absent, that lightwalletd answers alike at those paths are forwarded alike |
| `Decimal.Render` | zingo-proxyd/src/proxy.rs:84 | a port is spelled as a non-empty run of decimal digits with no leading zero |
| `Decimal.ParseRender` | zingo-proxyd/src/proxy.rs:84 | the decimal spelling of a port parses back to the same port |
| `Decimal.RenderInjective` | zingo-proxyd/src/proxy.rs:84 | distinct ports have distinct spellings |
| `Proxy.ProbeUri` | zingo-proxyd/src/proxy.rs:82-87 | the probe URI has scheme `http`, path `/` and an authority `localhost:` followed by digits that parse back to the port |
| `Proxy.ProbeUriInjective` | zingo-proxyd/src/proxy.rs:82-87 | the probe URI `http://localhost:{port}/` determines the port |
| `Proxy.FinalAttempts` | zingo-proxyd/src/proxy.rs:88-120 | the counter stops at the first answered probe, or at 3 when none answers; every probe before it failed |
| `Proxy.WaitExit` | zingo-proxyd/src/proxy.rs:91-123 | the health check returns iff one of the three probes answers; otherwise it exits with status 1 |
| `Proxy.FailureKindIrrelevant` | zingo-proxyd/src/proxy.rs:102-119 | a failed connect and a failed `get_lightd_info` are handled alike: two runs whose probes answer at the same attempts end the same way, with the same number of events, ticks, probes and flag stores |
| `Proxy.ProbeLoop` | zingo-proxyd/src/proxy.rs:88-123 | the loop records two events per failed probe, then one for an answered probe or two (store and exit) when the counter reaches 3; it records only probes, ticks, the store and the exit |
| `Proxy.ProbeLoopTicks` | zingo-proxyd/src/proxy.rs:88-120 | the loop ticks once per failed probe and at no other time: every tick comes right after a failed probe, and every failed probe is followed at once by a tick |
| `Proxy.ProbeLoopProbes` | zingo-proxyd/src/proxy.rs:91-119 | the loop makes one probe per iteration: the failed ones plus the answered one |
| `Proxy.ProbeLoopFlag` | zingo-proxyd/src/proxy.rs:91-123 | the loop stores `false` into `online` iff no probe answers |
| `Proxy.ProbeLoopStoresOnce` | zingo-proxyd/src/proxy.rs:88-123 | the loop stores `false` into `online` exactly once when no probe answers, and never otherwise |
| `Proxy.ProbeLoopLast` | zingo-proxyd/src/proxy.rs:91-123 | the loop ends with the flag store followed by the exit when no probe answers, and with the answered probe otherwise |
| `Proxy.ProbeLoopTargets` | zingo-proxyd/src/proxy.rs:92 | every probe is made at the probe URI |
| `Proxy.WaitEvents` | zingo-proxyd/src/proxy.rs:81-124 | the health check opens with a tick and records 2n+2 events when probe n answers first, 9 when all three fail |
| `Proxy.WaitEventsCounts` | zingo-proxyd/src/proxy.rs:81-124 | one tick comes before the first probe and every probe comes right after a tick; there are at most 3 probes; there are n+1 ticks for n failed probes, so 4 ticks and 3 probes when all fail |
| `Proxy.WaitEventsEnd` | zingo-proxyd/src/proxy.rs:81-124 | `online` is set false iff no probe answers, and then exactly once; the exit is then the last event, right after the store (it never returns); otherwise the answered probe is last |
| `Proxy.WaitEventsTargets` | zingo-proxyd/src/proxy.rs:82-92 | every probe of the health check targets `http://localhost:{port}/` |
| `Proxy.SpawnEvents` | zingo-proxyd/src/proxy.rs:15-73 | the node check is the first step; a failed check records nothing else; a passing one is followed at once by the gRPC server spawn |
| `Proxy.HealthPort` | zingo-proxyd/src/proxy.rs:43-50 | the default build health-checks `proxy_port`, the `nym_poc` build `lwd_port` |
| `Proxy.NymEvents` | zingo-proxyd/src/proxy.rs:52-66 | the Nym start-up records something iff the health check returned and the build is the default one, and then it is the Nym server spawn first and the 2-second sleep last, nothing else |
| `Proxy.SpawnProbesHealthPort` | zingo-proxyd/src/proxy.rs:43-50 | every health probe comes after the gRPC server spawn and targets `proxy_port` in the default build and `lwd_port` under `nym_poc` |
| `Proxy.SpawnNymOnlyWhenHealthy` | zingo-proxyd/src/proxy.rs:52-66 | the Nym server is spawned iff the node check and the health check pass in the default build |
| `Proxy.SpawnNymAfterProbes` | zingo-proxyd/src/proxy.rs:43-66 | the Nym spawn and the 2-second sleep come after every health probe |
| `Proxy.ProxyProcess.CloseProxy` | zingo-proxyd/src/proxy.rs:76-78 | `online` is false afterwards whatever it held, so repeating the call leaves the same flag |
| `Proxy.ProxyProcess.WaitOnGrpcStartup` | zingo-proxyd/src/proxy.rs:81-124 | the loop produces exactly the specified events and exit; `online` is unchanged when it returns and false when it exits |
| `Proxy.ProxyProcess.SpawnProxy` | zingo-proxyd/src/proxy.rs:15-73 | events in the specified order; a failed node check panics with no handles; a failed health check exits with status 1 after one gRPC handle and clears `online`; otherwise the handles are [gRPC, Nym] with address `Some` in the default build and [gRPC] with `None` under `nym_poc` |

## Left out

- TLS set-up is not modelled: the root store from `webpki_roots`, `ClientConfig`, and `HttpsConnectorBuilder`'s `https_or_http`. Neither is the construction of the hyper/tower/tonic client, or `enforce_http(false)`. These are library calls whose internals are not part of this model. Only the scheme-based choice and the HTTP/2 flags remain.
- `add_test_cert_to_roots` is left out: it is test-only file I/O and PEM parsing.
- `http::Uri::builder().build()` is assumed to accept the three parts. Each is taken from an existing valid URI, so its `unwrap` is not modelled as a panic.
- The overlay (Nym) transport as a connector kind is left out. `utils.rs` has only the TLS and plain branches.
- Tokio timing is not modelled: the 500 ms interval and the 2 s sleep are counted events, not durations. `std::process::exit(1)` is the outcome `Exited(1)`. Killing the other running tasks is not modelled.
- `Arc<AtomicBool>` is a plain boolean field. Memory ordering and task concurrency are not modelled.
- `spawn_grpc_server`, `NymServer` and `test_node_and_return_uri` are abstract events and oracles. Their code is not part of this model.
- `startup_message` and every `println!` are left out: they only print.
- The passthrough response is whatever `serve` returns. Protobuf message contents and gRPC status codes are not modelled.
