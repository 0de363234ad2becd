/**
 * The two renderings of a probe result: the process exit code of the
 * one-shot CLI mode, and the HTTP reply of healthHandler, together with how
 * healthHandler picks the service name to probe.
 */
module Adapters {
  import opened Wrappers
  import opened HealthProtocol
  import opened Probe

  // ---------------------------------------------------------------------
  // CLI mode

  /**
   * The exit code of the CLI branch of main. A probe error exits with its own
   * code when it is one of 1-4 and with 5 otherwise; with no error a status
   * other than SERVING exits 5; SERVING falls off the end of main, exit 0.
   */
  function CliExitCode(r: ProbeResult): (exit: int)
    ensures 0 <= exit <= StatusUnhealthy
    ensures exit == 0 <==> r.err.None? && r.status == SERVING
    ensures r.err.Some? && IsProbeErrorCode(r.err.value.code) ==> exit == r.err.value.code
    ensures r.err.Some? && !IsProbeErrorCode(r.err.value.code) ==> exit == StatusUnhealthy
    ensures r.err.None? && r.status != SERVING ==> exit == StatusUnhealthy
  {
    if r.err.Some? then
      var code := r.err.value.code;
      if code == StatusConnectionFailure then StatusConnectionFailure
      else if code == StatusRPCFailure then StatusRPCFailure
      else if code == StatusUnimplemented then StatusUnimplemented
      else if code == StatusServiceNotFound then StatusServiceNotFound
      else StatusUnhealthy
    else if r.status != SERVING then StatusUnhealthy
    else 0
  }

  // ---------------------------------------------------------------------
  // HTTP mode

  const HttpOK: int := 200
  const HttpNotFound: int := 404
  const HttpNotImplemented: int := 501
  const HttpBadGateway: int := 502

  /** A written HTTP response: status code and body. */
  datatype HttpReply = HttpReply(statusCode: int, body: string)

  /** Go's http.Error: the given code, and the message followed by a newline as body. */
  function HttpError(message: string, code: int): (reply: HttpReply)
    ensures reply.statusCode == code
    ensures |reply.body| == |message| + 1 && reply.body[..|message|] == message && reply.body[|message|] == '\n'
  {
    HttpReply(code, message + "\n")
  }

  /** `fmt.Sprintf("%s %v", name, status)`. */
  function NameAndStatus(name: string, s: ServingStatus): string {
    name + " " + StatusName(s)
  }

  /**
   * healthHandler's rendering of a probe result. Bodies that name a service
   * name the configured one (`flServiceName`), not necessarily the one that
   * was probed; the other error bodies carry the probe error's message. The
   * status switch has no default case: a status number outside the enum
   * writes nothing, which net/http sends as 200 with an empty body.
   */
  function HealthReply(flServiceName: string, r: ProbeResult): (reply: HttpReply)
    ensures reply.statusCode in {HttpOK, HttpNotFound, HttpNotImplemented, HttpBadGateway}
    ensures reply.statusCode == HttpOK <==> r.err.None? && (r.status == SERVING || r.status.Unrecognized?)
    ensures r.err.Some? && r.err.value.code == StatusServiceNotFound ==>
      reply == HttpError(flServiceName + " ServiceNotFound", HttpNotFound)
    ensures r.err.Some? && r.err.value.code == StatusUnimplemented ==>
      reply == HttpError(r.err.value.message, HttpNotImplemented)
    ensures r.err.Some? && r.err.value.code != StatusServiceNotFound && r.err.value.code != StatusUnimplemented ==>
      reply == HttpError(r.err.value.message, HttpBadGateway)
    ensures r.err.None? && r.status == SERVING ==> reply == HttpReply(HttpOK, NameAndStatus(flServiceName, SERVING))
    ensures r.err.None? && r.status.Unrecognized? ==> reply == HttpReply(HttpOK, "")
    ensures r.err.None? && r.status != SERVING && !r.status.Unrecognized? ==>
      reply == HttpError(NameAndStatus(flServiceName, r.status),
                         if r.status == SERVICE_UNKNOWN then HttpNotFound else HttpBadGateway)
  {
    match r.err
    case Some(pe) =>
      if pe.code == StatusConnectionFailure then HttpError(pe.message, HttpBadGateway)
      else if pe.code == StatusRPCFailure then HttpError(pe.message, HttpBadGateway)
      else if pe.code == StatusUnimplemented then HttpError(pe.message, HttpNotImplemented)
      else if pe.code == StatusServiceNotFound then HttpError(flServiceName + " ServiceNotFound", HttpNotFound)
      else HttpError(pe.message, HttpBadGateway)
    case None =>
      match r.status
      case SERVING => HttpReply(HttpOK, NameAndStatus(flServiceName, SERVING))
      case NOT_SERVING => HttpError(NameAndStatus(flServiceName, NOT_SERVING), HttpBadGateway)
      case UNKNOWN => HttpError(NameAndStatus(flServiceName, UNKNOWN), HttpBadGateway)
      case SERVICE_UNKNOWN => HttpError(NameAndStatus(flServiceName, SERVICE_UNKNOWN), HttpNotFound)
      case Unrecognized(_) => HttpReply(HttpOK, "")
  }

  /** One `key=value` pair of the request's query string, in order of appearance. */
  type QueryParam = (string, string)

  /** `r.URL.Query()[key]`: every value given for `key`, in order. */
  function QueryValues(query: seq<QueryParam>, key: string): (vs: seq<string>)
    ensures |vs| <= |query|
    ensures forall v :: v in vs <==> (key, v) in query
    ensures vs == [] <==> forall i :: 0 <= i < |query| ==> query[i].0 != key
    ensures forall i :: (0 <= i < |query| && query[i].0 == key && (forall j :: 0 <= j < i ==> query[j].0 != key))
                        ==> vs != [] && vs[0] == query[i].1
  {
    if query == [] then []
    else if query[0].0 == key then [query[0].1] + QueryValues(query[1..], key)
    else QueryValues(query[1..], key)
  }

  /** The values of a query split in two are those of the first part followed by those of the second. */
  lemma {:induction false} QueryValuesConcat(p: seq<QueryParam>, q: seq<QueryParam>, key: string)
    ensures QueryValues(p + q, key) == QueryValues(p, key) + QueryValues(q, key)
    decreases |p|
  {
    if p == [] {
      assert p + q == q;
    } else {
      var pq := p + q;
      assert pq[0] == p[0] && pq[1..] == p[1..] + q;
      QueryValuesConcat(p[1..], q, key);
      if p[0].0 == key {
        calc {
          QueryValues(pq, key);
          [p[0].1] + QueryValues(p[1..] + q, key);
          [p[0].1] + (QueryValues(p[1..], key) + QueryValues(q, key));
          ([p[0].1] + QueryValues(p[1..], key)) + QueryValues(q, key);
        }
      } else {
        assert QueryValues(pq, key) == QueryValues(p[1..] + q, key);
      }
    }
  }

  /** The first `serviceName` value, when there is one and it is not empty. */
  predicate HasQueryServiceName(query: seq<QueryParam>) {
    var keys := QueryValues(query, "serviceName");
    |keys| > 0 && |keys[0]| > 0
  }

  /**
   * The service healthHandler probes: the configured name, replaced by the
   * first `serviceName` query value when that is non-empty. The empty string
   * asks the peer for its overall status.
   */
  function ResolveServiceName(flServiceName: string, query: seq<QueryParam>): (name: string)
    ensures HasQueryServiceName(query) ==> name == QueryValues(query, "serviceName")[0]
    ensures !HasQueryServiceName(query) ==> name == flServiceName
    ensures name == "" <==> flServiceName == "" && !HasQueryServiceName(query)
  {
    var serviceName := if flServiceName != "" then flServiceName else "";
    var keys := QueryValues(query, "serviceName");
    if |keys| > 0 && |keys[0]| > 0 then keys[0] else serviceName
  }

  /**
   * healthHandler: resolve the service, probe it with the given dial target
   * and options, render the result.
   */
  function HealthHandler(flServiceName: string, addr: string, opts: seq<DialOption>,
                         query: seq<QueryParam>, network: ProbeRequest -> RawProbe): (reply: HttpReply)
    ensures var raw := network(ProbeRequest(addr, opts, ResolveServiceName(flServiceName, query)));
      && (reply.statusCode == HttpOK <==>
            raw.RpcSucceeded? && (raw.resp.status == SERVING || raw.resp.status.Unrecognized?))
      && (raw.DialFailed? ==> reply == HttpReply(HttpBadGateway, "StatusConnectionFailure\n"))
      && (raw.RpcSucceeded? && raw.resp.status == SERVING ==> reply == HttpReply(HttpOK, flServiceName + " SERVING"))
      && (raw.RpcFailed? && FromError(raw.err) == Some(NotFound) ==>
            reply == HttpReply(HttpNotFound, flServiceName + " ServiceNotFound\n"))
      && (raw.RpcFailed? && FromError(raw.err) == Some(Unimplemented) ==> reply.statusCode == HttpNotImplemented)
  {
    var serviceName := ResolveServiceName(flServiceName, query);
    HealthReply(flServiceName, CheckService(network(ProbeRequest(addr, opts, serviceName))))
  }

  // ---------------------------------------------------------------------
  // Properties connecting the pieces

  /** The query value wins over a configured service name, whatever the flag's help text says. */
  lemma QueryOverridesConfiguredName(flServiceName: string, addr: string, opts: seq<DialOption>,
                                     query: seq<QueryParam>, network: ProbeRequest -> RawProbe)
    requires HasQueryServiceName(query)
    ensures HealthHandler(flServiceName, addr, opts, query, network) ==
      HealthReply(flServiceName, CheckService(network(ProbeRequest(addr, opts, QueryValues(query, "serviceName")[0]))))
  {
  }

  /** A SERVING answer is rendered with the configured name, not the probed one. */
  lemma ServingBodyUsesConfiguredName(flServiceName: string, addr: string, opts: seq<DialOption>,
                                      query: seq<QueryParam>, network: ProbeRequest -> RawProbe)
    requires network(ProbeRequest(addr, opts, ResolveServiceName(flServiceName, query))) ==
      RpcSucceeded(HealthCheckResponse(SERVING))
    ensures HealthHandler(flServiceName, addr, opts, query, network) == HttpReply(HttpOK, flServiceName + " SERVING")
  {
  }

  /**
   * For every probe result with a status the enum lists, the CLI exits 0
   * exactly when the HTTP reply is 200; the one exception is an unlisted
   * status number, which the HTTP side answers 200 and the CLI exits 5.
   */
  lemma ExitZeroIffHttpOk(flServiceName: string, r: ProbeResult)
    ensures !r.status.Unrecognized? ==> (CliExitCode(r) == 0 <==> HealthReply(flServiceName, r).statusCode == HttpOK)
    ensures CliExitCode(r) == 0 ==> HealthReply(flServiceName, r).statusCode == HttpOK
    ensures (HealthReply(flServiceName, r).statusCode == HttpOK && CliExitCode(r) != 0) <==>
      (r.err.None? && r.status.Unrecognized?)
  {
  }

  /** An unlisted status number: the CLI reports it unhealthy, the HTTP handler answers an empty 200. */
  lemma UnrecognizedStatusDisagrees(flServiceName: string, n: int)
    ensures CliExitCode(CheckService(RpcSucceeded(HealthCheckResponse(Unrecognized(n))))) == StatusUnhealthy
    ensures HealthReply(flServiceName, CheckService(RpcSucceeded(HealthCheckResponse(Unrecognized(n))))) ==
      HttpReply(HttpOK, "")
  {
  }

  /** The exit code and the HTTP status of one classified probe, row by row. */
  lemma AdaptersAgree(flServiceName: string, raw: RawProbe)
    ensures var r := CheckService(raw);
      var exit, http := CliExitCode(r), HealthReply(flServiceName, r).statusCode;
      && (exit == 0 ==> http == HttpOK)
      && (http == HttpOK && exit != 0 <==> raw.RpcSucceeded? && raw.resp.status.Unrecognized?)
      && (exit == StatusConnectionFailure ==> http == HttpBadGateway)
      && (exit == StatusRPCFailure ==> http == HttpBadGateway)
      && (exit == StatusServiceNotFound ==> http == HttpNotFound)
      && (exit == StatusUnimplemented <==> http == HttpNotImplemented)
      && (exit == StatusUnhealthy ==> http == HttpBadGateway || http == HttpNotFound || http == HttpOK)
      && (exit == StatusUnhealthy && http == HttpNotFound <==> raw == RpcSucceeded(HealthCheckResponse(SERVICE_UNKNOWN)))
  {
  }

  /** A peer without the health service is never reported healthy by either adapter. */
  lemma UnimplementedNeverHealthy(flServiceName: string, e: RpcError)
    requires FromError(e) == Some(Unimplemented)
    ensures CliExitCode(CheckService(RpcFailed(e))) == StatusUnimplemented
    ensures HealthReply(flServiceName, CheckService(RpcFailed(e))).statusCode == HttpNotImplemented
  {
  }

  /** A dial failure exits 1 and answers 502, however long the RPC timeout. */
  lemma ConnectFailureRendered(flServiceName: string, deadlineExceeded: bool)
    ensures CliExitCode(CheckService(DialFailed(deadlineExceeded))) == StatusConnectionFailure
    ensures HealthReply(flServiceName, CheckService(DialFailed(deadlineExceeded))) ==
      HttpReply(HttpBadGateway, "StatusConnectionFailure\n")
  {
  }

  /** A NotFound answer exits 3 and answers 404 "<flServiceName> ServiceNotFound". */
  lemma NotFoundRendered(flServiceName: string, e: RpcError)
    requires FromError(e) == Some(NotFound)
    ensures CliExitCode(CheckService(RpcFailed(e))) == StatusServiceNotFound
    ensures HealthReply(flServiceName, CheckService(RpcFailed(e))) ==
      HttpReply(HttpNotFound, flServiceName + " ServiceNotFound\n")
  {
  }
}
