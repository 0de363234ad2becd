# grpc_health_proxy, modelled in Dafny

grpc_health_proxy turns the gRPC Health Checking Protocol
(`grpc.health.v1.Health/Check`) into answers that plain clients understand.
In one-shot CLI mode the answer is a process exit code. In server mode it is
an HTTP response: status code and body. This project models the proxy's
decision logic and proves properties of it:

- **Start-up checks** (`ProbeConfigs`). `init` runs a sequence of argument
  checks and exits at the first one that fails. This is `FirstViolation`, and
  it is proved equivalent to `ValidConfig`, which states the rules as pairings,
  exclusions and co-requirements.
- **Credential builder** (`Credentials`). `BuildGrpcCredentials` fills a
  `tls.Config` record one field at a time: an optional client key pair, then
  either skip-verify or a root CA pool, then an optional SNI name. The outcomes
  of file reads and PEM parsing are given as `KeyMaterial` booleans.
- **Probe classifier** (`Probe`). `CheckService` maps the network's raw answer
  to `(ServingStatus, optional GrpcProbeError)`. The raw answer is one of: a
  failed dial, a failed RPC, or a successful RPC. When an RPC error is not one
  of the three recognised codes, the code goes on to call `resp.GetStatus()`
  on the nil response. That gives `(UNKNOWN, no error)`.
- **Output adapters** (`Adapters`). `CliExitCode` gives the exit code.
  `HealthReply` gives the HTTP reply. `ResolveServiceName` picks which service
  a request probes. Lemmas prove the two encodings agree.
- **Process** (`Proxy`). The class `ProxyState` holds the package-level `cfg`
  and the `opts` slice that `main` appends to. `RunProcess` runs `init` and
  then `main`.
- **Example health server** (`ExampleServer`). The class `HealthServer` has the
  mutable `statusMap`. `Check` rewrites `statusMap` from a random draw `r` in
  [0, 100) and then looks up the requested name. The two example servers,
  example/app/src/grpc_server.go and example/src/grpc_server.go, have the same
  `Server`, `NewServer`, `Check` and `Watch`, so they are modelled once. The
  table cites both files.
- **Scenarios** (`Scenarios`). The proxy probes the example server, and its
  answer is followed through both adapters.

The network enters as a function `ProbeRequest -> RawProbe`. It maps the dial
address, the dial options and the service name to the raw answer. This
function, the `KeyMaterial` oracle and the draw `r` are the only inputs from
outside.

Behaviour reproduced exactly as the code has it:
- Go's `http.Error` writes its message followed by a newline. The SERVING
  body is written with `fmt.Fprintf` and has no newline.
- Start-up failures call `os.Exit(-1)`. This is modelled as the value -1.
- An RPC error other than Unimplemented, DeadlineExceeded or NotFound does
  not become an error of its own. It becomes `(UNKNOWN, no error)`, which
  gives exit 5 and HTTP 502 with body `"<flServiceName> UNKNOWN\n"`.
- The bodies that name a service use the configured `flServiceName`, never
  the probed name: the SERVING, NOT_SERVING, UNKNOWN and SERVICE_UNKNOWN
  bodies and the ServiceNotFound one. So a NotFound for a name that came from
  the query is reported as `"<flServiceName> ServiceNotFound"`, which is
  `" ServiceNotFound"` when no name is configured. The other error bodies
  (codes 1, 2, 4 and any other code) carry only the probe error's message.
- The serving status is an open proto3 enum, so a peer can answer with a
  number outside 0-3 (`Unrecognized`). The CLI exits 5 for it. The HTTP
  handler's status switch has no case for it and writes nothing, so net/http
  answers 200 with an empty body (`UnrecognizedStatusDisagrees`). This is the
  one case where exit 0 and HTTP 200 part ways.
- In the example server, `r <= unhealthyproability` makes NOT_SERVING happen
  in `unhealthyproability + 1` of the 100 draws (`NotServingDraws`), so it
  happens once in 100 even with threshold 0.

### Where the code and its own documentation differ (the model follows the code)
- A non-empty `serviceName` query value **overrides** the configured
  `-service-name` (`ResolveServiceName`, `QueryOverridesConfiguredName`). The flag's help text (main.go:129) says that a configured
  name makes the server ignore the query parameter.

## Model

| member | source | states |
|---|---|---|
| `HealthProtocol.StatusName` | main.go:371-381 | every status prints as non-empty text: its enum name, or its number for an unlisted value |
| `HealthProtocol.GetStatus` | main.go:336 | the getter on a nil response yields UNKNOWN; on a response it yields that response's status |
| `HealthProtocol.FromError` | main.go:309-317 | a code is reported (`ok`) exactly for gRPC status errors, and it is the error's own code |
| `ProbeConfigs.FirstViolation` | main.go:188-229 | the reported rule is violated, and no rule earlier in check order is; None only when no rule is violated |
| `ProbeConfigs.PassesIffValid` | main.go:188-229 | the checks pass iff: address set; listen address set unless in CLI mode; both timeouts > 0; client cert and key paired; no-verify excludes a CA cert and an SNI name; no-verify, CA cert, client cert/key and SNI each require `-grpctls`; HTTPS cert and key paired; verify-client requires a verify CA |
| `ProbeConfigs.ClientKeyNeedsTls` | main.go:206-217 | a configuration that passes with a client key also has TLS and a client cert, though no rule pairs the key with TLS directly |
| `Credentials.BuildError` | main.go:251-271 | the builder fails iff the requested key pair does not load, or the CA file it consults is unreadable or has no certificates; the key-pair error comes first, then an unreadable CA file, then one with no certificates; CA errors name the CA file; no server-side error ever comes from here |
| `Credentials.TlsConfigFor` | main.go:249-274 | InsecureSkipVerify equals no-verify; RootCAs is the pool of the named CA file iff verification is on and a CA file is named, and never together with skip-verify; ServerName is the SNI flag's value; the certificate list is exactly the client key pair when both cert and key are given, and empty otherwise |
| `Credentials.BuildGrpcCredentials` | main.go:248-276 | fails with exactly the first failing step's error, otherwise returns the configuration above |
| `Credentials.NoVerifyIgnoresCaFile` | main.go:259-261 | under no-verify the outcome does not depend on the CA file's content or readability (the file is never read) |
| `Credentials.ValidNoVerifyConfig` | main.go:221-223 | a validated no-verify configuration yields skip-verify, no roots and no server name |
| `Probe.CheckService` | main.go:278-337 | an error is returned only for a dial failure or an Unimplemented/DeadlineExceeded/NotFound RPC error, always with a code in 1-4; SERVICE_UNKNOWN with an error exactly for NotFound; other RPC errors give UNKNOWN with no error; a successful RPC gives the peer's status and no error |
| `Probe.ConnectFailureClassified` | main.go:287-295 | any dial failure, deadline or other, gives UNKNOWN with error code 1 "StatusConnectionFailure" |
| `Probe.RpcErrorMapping` | main.go:307-324 | Unimplemented gives (UNKNOWN, 4), DeadlineExceeded gives (UNKNOWN, 2), NotFound gives (SERVICE_UNKNOWN, 3) |
| `Probe.OtherRpcErrorFallsThrough` | main.go:325-336 | any other RPC error, including one with no gRPC status, gives (UNKNOWN, no error) |
| `Probe.ErrorCodeOrigin` | main.go:288-324 | each error code 1-4 arises from exactly one kind of raw answer |
| `Adapters.CliExitCode` | main.go:399-423 | exit 0 iff there is no error and the status is SERVING; error codes 1-4 exit with that code, any other code exits 5; no error and not SERVING exits 5 |
| `Adapters.HttpError` | main.go:357 | the body is the message followed by one newline, and the status is the given one |
| `Adapters.HealthReply` | main.go:352-382 | 200 iff no error and SERVING or an unlisted status number; SERVING has body "<flServiceName> SERVING" and an unlisted number an empty body; ServiceNotFound gives 404 "<flServiceName> ServiceNotFound"; Unimplemented gives 501; connection, RPC and unlisted codes give 502 with the message; with no error, NOT_SERVING and UNKNOWN give 502 and SERVICE_UNKNOWN gives 404, with body "<flServiceName> <status>" |
| `Adapters.QueryValues` | main.go:345 | the values returned are exactly those paired with the key in the query; the list is empty iff the key is absent; its first element is the value of the key's first occurrence |
| `Adapters.QueryValuesConcat` | main.go:345 | the values keep query order: those of a query split in two are the first part's followed by the second's |
| `Adapters.ResolveServiceName` | main.go:341-348 | a non-empty first `serviceName` value wins; otherwise the configured name is used; the result is empty ("overall") iff both are empty |
| `Adapters.QueryOverridesConfiguredName` | main.go:341-350 | the handler probes the query's name even when a service name is configured |
| `Adapters.ServingBodyUsesConfiguredName` | main.go:373-375 | a SERVING answer renders as 200 "<flServiceName> SERVING", whatever name was probed |
| `Adapters.ExitZeroIffHttpOk` | main.go:352-423 | for every probe result with a listed status, exit code 0 holds exactly when the HTTP status is 200; exit 0 always gives 200; 200 with a non-zero exit happens exactly for an unlisted status number with no error |
| `Adapters.UnrecognizedStatusDisagrees` | main.go:371-382 | a peer answering a status number the enum does not list makes the CLI exit 5 and the HTTP handler answer 200 with an empty body |
| `Adapters.HealthHandler` | main.go:339-383 | the reply is 200 exactly when the RPC for the resolved service succeeded with SERVING or an unlisted status; a dial failure answers 502 "StatusConnectionFailure"; SERVING answers "<flServiceName> SERVING"; NotFound answers 404 "<flServiceName> ServiceNotFound"; Unimplemented answers 501 |
| `Adapters.AdaptersAgree` | main.go:352-423 | for every raw answer: exit 0 gives 200, and 200 comes with a non-zero exit exactly when the peer answered an unlisted status number; exit 1 and 2 give 502; exit 3 gives 404; exit 4 iff 501; exit 5 gives 502, 404 exactly when the peer answered SERVICE_UNKNOWN, or 200 for an unlisted number |
| `Adapters.UnimplementedNeverHealthy` | main.go:309-312 | an Unimplemented peer exits 4 and answers 501, so it never exits 0 and never answers 200 |
| `Adapters.ConnectFailureRendered` | main.go:356-357 | a dial failure exits 1 and answers 502 "StatusConnectionFailure" |
| `Adapters.NotFoundRendered` | main.go:362-363 | a NotFound answer exits 3 and answers 404 "<flServiceName> ServiceNotFound" |
| `Proxy.DialOptionsFor` | main.go:387-397 | the user agent comes first, then insecure credentials without TLS, or the built TLS configuration with it |
| `Proxy.ProxyState.constructor` | main.go:69-71 | the configuration is kept and `opts` starts empty |
| `Proxy.ProxyState.SetUpDialOptions` | main.go:387-397 | succeeds iff TLS is off or the credentials build; appends the user agent and then the credentials, and on failure only the user agent |
| `Proxy.ProxyState.RunCli` | main.go:399-423 | probes the configured address with the collected options for the configured service name; exits with that result's CLI code, always in 0-5 |
| `Proxy.RunProcess` | main.go:385-437 | an invalid configuration or unbuildable TLS credentials exits -1; CLI mode then exits with the rendered probe of the configured service; server mode exits -1 when the client-verification CA cannot be loaded and otherwise hands over to the HTTP listeners (None); exit 0 only for a valid CLI run whose probe was (SERVING, no error) |
| `Credentials.ServerTlsConfigFor` | main.go:426-442 | fails iff client verification is on and its CA file is unreadable or holds no certificate, naming that file; otherwise client certificates are required and verified iff client verification is on, against the pool of that CA file |
| `ExampleServer.DrawStatus` | example/app/src/grpc_server.go:103-108 | NOT_SERVING exactly when `r <= unhealthyproability`, SERVING otherwise |
| `ExampleServer.NotServingDraws` | example/app/src/grpc_server.go:103-104 | of the draws in [0, n), exactly `unhealthyproability + 1` (clamped to [0, n]) give NOT_SERVING |
| `ExampleServer.FullThresholdAlwaysNotServing` | example/src/grpc_server.go:93-95 | with threshold 100 (or anything ≥ 99) every draw gives NOT_SERVING |
| `ExampleServer.ZeroThresholdNotServingAtZero` | example/app/src/grpc_server.go:103-105 | with threshold 0 the draw 0 still gives NOT_SERVING; 1 draw in 100 does |
| `ExampleServer.AtMostOneEntry` | example/src/grpc_server.go:95-97 | a table whose keys are at most "echo.EchoServer" has size at most 1 |
| `ExampleServer.HealthServer.constructor` | example/src/grpc_server.go:67-72 | NewServer starts with an empty table |
| `ExampleServer.HealthServer.Check` | example/app/src/grpc_server.go:94-116 | the empty name returns SERVING with no error and leaves the table unchanged; otherwise the table becomes the old one with "echo.EchoServer" set to the draw's status; "echo.EchoServer" returns exactly that status; a name not in the table returns UNKNOWN with NotFound "unknown service"; the only-EchoServer invariant is kept, so the size stays at most 1 and every other non-empty name is NotFound |
| `ExampleServer.HealthServer.Watch` | example/src/grpc_server.go:106-108 | always returns an Unimplemented status error |
| `Scenarios.OverTheWire` | main.go:306 | an RPC error reaches the proxy as a failed RPC with a nil response; otherwise the response arrives |
| `Scenarios.ProbeExampleServer` | example/src/grpc_server.go:88-103 | probing the example server: the overall name exits 0, answers 200 "<flServiceName> SERVING" and leaves the table unchanged; any other name sets the table's "echo.EchoServer" entry to the draw; "echo.EchoServer" exits 0 iff `r > unhealthyproability`, then answering 200 "<flServiceName> SERVING", and otherwise exits 5 and answers 502 "<flServiceName> NOT_SERVING"; any other name exits 3 and answers 404 "<flServiceName> ServiceNotFound" |
| `Scenarios.ProbeFullyUnhealthyServer` | example/app/src/grpc_server.go:103-105 | with threshold 100 a probe of "echo.EchoServer" sets its entry to NOT_SERVING, exits 5 and answers 502 "<flServiceName> NOT_SERVING" |

## Left out

- Dialling, the Health/Check RPC over the wire and `conn.Close` (main.go:287-306): the network is a function argument that returns a `RawProbe`.
- Timeouts, contexts and `time.Since` (main.go:284-301, 332-334): wall-clock time is not modelled. A dial deadline is kept only as a flag on `DialFailed`, and it does not change the result.
- Prometheus histograms, counters and the HTTP middleware (main.go:73-89, 117-125, 280-281, 310-330): telemetry sinks with no effect on results.
- Logging setup, the log file, `flag.Parse` and flag defaults (main.go:127-186, 231-245): I/O and argument parsing. The argument-error messages are replaced by the `ArgRule` names.
- The configuration fields used only by those parts (metrics address and path, health path, log target, JSON and debug logging) are not in `ProbeConfig`.
- The HTTP server, mux routing, the metrics goroutine and starting the listeners (main.go:444-473): I/O and concurrency. Each request that server mode serves is `Adapters.HealthHandler`.
- Proxy.RunProcess: in server mode its None means that start-up handed over to the HTTP listeners. The exit -1 that follows when a listener fails or returns (main.go:449-453, 470-472) is not modelled, because it depends on the network.
- `tls.LoadX509KeyPair`, `os.ReadFile` and `AppendCertsFromPEM`, for both the upstream and the client-verification CA: library code. Their outcomes are the `KeyMaterial` booleans, and key pairs and pools are represented by the file names they come from.
- Parsing the raw URL query string: the query is given already split into key/value pairs, in order.
- The range of an unlisted status number: proto enum values are 32-bit and 0-3 always decode to the named values, but `Unrecognized` carries any integer.
- The `err.(*GrpcProbeError)` type assertions (main.go:353, 402): they always succeed on checkService's errors, so the error is modelled as `Option<GrpcProbeError>`.
- `sync.Mutex` in the example servers: `Check` is one sequential method.
- `rand.Intn(100)` and the `--unhealthyproability` flag: both are parameters of `Check`.
- `SayHello`, `SayHelloStream` and the example servers' `main`: hostname I/O, streaming and listener setup.
- example/src/grpc_client.go and example/app/src/grpc_client.go: dial-and-call plumbing with no logic of their own.
