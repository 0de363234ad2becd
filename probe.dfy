/**
 * checkService: one dial and one Health/Check call, and the classification of
 * what they return into a serving status and an optional probe error. The
 * network is not modelled; its answer arrives as a RawProbe.
 */
module Probe {
  import opened Wrappers
  import opened HealthProtocol
  import opened Credentials

  /** The probe error codes; they double as the CLI exit codes. */
  const StatusConnectionFailure: int := 1
  const StatusRPCFailure: int := 2
  const StatusServiceNotFound: int := 3
  const StatusUnimplemented: int := 4
  const StatusUnhealthy: int := 5

  /** GrpcProbeError: a code and the message that Error() returns. */
  datatype GrpcProbeError = GrpcProbeError(code: int, message: string)

  /** The transport credentials handed to the dialer. */
  datatype TransportCredentials = InsecureCredentials | TlsCredentials(config: TlsConfig)

  /** The dial options main collects in `opts`. */
  datatype DialOption = WithUserAgent(userAgent: string) | WithTransportCredentials(creds: TransportCredentials)

  /** What one probe asks of the network: where to dial, how, and which service to check. */
  datatype ProbeRequest = ProbeRequest(addr: string, opts: seq<DialOption>, service: string)

  /**
   * What the network answered. A failed dial (its own deadline or any other
   * error) never reaches the RPC; a failed RPC returns a nil response.
   */
  datatype RawProbe =
    | DialFailed(deadlineExceeded: bool)
    | RpcFailed(err: RpcError)
    | RpcSucceeded(resp: HealthCheckResponse)

  /** checkService's pair of results: the serving status and the error (nil as None). */
  datatype ProbeResult = ProbeResult(status: ServingStatus, err: Option<GrpcProbeError>)

  /** The codes checkService can put into an error. */
  predicate IsProbeErrorCode(code: int) {
    code == StatusConnectionFailure || code == StatusRPCFailure ||
    code == StatusServiceNotFound || code == StatusUnimplemented
  }

  /**
   * The classification. The three RPC error checks run in the order
   * Unimplemented, DeadlineExceeded, NotFound; any other RPC error is only
   * counted and falls through to `resp.GetStatus()` on the nil response.
   */
  function CheckService(raw: RawProbe): (r: ProbeResult)
    ensures r.err.Some? ==> IsProbeErrorCode(r.err.value.code)
    ensures r.err.Some? <==>
      (raw.DialFailed? ||
       (raw.RpcFailed? && FromError(raw.err) in {Some(Unimplemented), Some(DeadlineExceeded), Some(NotFound)}))
    ensures (r.status == SERVICE_UNKNOWN && r.err.Some?) <==> (raw.RpcFailed? && FromError(raw.err) == Some(NotFound))
    ensures r.err.None? && raw.RpcFailed? ==> r.status == UNKNOWN
    ensures raw.RpcSucceeded? ==> r == ProbeResult(raw.resp.status, None)
  {
    match raw
    case DialFailed(_) =>
      // a dial deadline and any other dial error are reported alike
      ProbeResult(UNKNOWN, Some(GrpcProbeError(StatusConnectionFailure, "StatusConnectionFailure")))
    case RpcFailed(e) =>
      if FromError(e) == Some(Unimplemented) then
        ProbeResult(UNKNOWN, Some(GrpcProbeError(StatusUnimplemented, "StatusUnimplemented")))
      else if FromError(e) == Some(DeadlineExceeded) then
        ProbeResult(UNKNOWN, Some(GrpcProbeError(StatusRPCFailure, "StatusRPCFailure")))
      else if FromError(e) == Some(NotFound) then
        ProbeResult(SERVICE_UNKNOWN, Some(GrpcProbeError(StatusServiceNotFound, "StatusServiceNotFound")))
      else
        ProbeResult(GetStatus(None), None)
    case RpcSucceeded(resp) =>
      ProbeResult(GetStatus(Some(resp)), None)
  }

  /** Any dial failure, timeout or not, is a connection failure with status UNKNOWN. */
  lemma ConnectFailureClassified(deadlineExceeded: bool)
    ensures CheckService(DialFailed(deadlineExceeded)) ==
      ProbeResult(UNKNOWN, Some(GrpcProbeError(StatusConnectionFailure, "StatusConnectionFailure")))
  {
  }

  /** The three recognised RPC status codes and what each becomes. */
  lemma RpcErrorMapping(e: RpcError)
    ensures FromError(e) == Some(Unimplemented) ==>
      CheckService(RpcFailed(e)) == ProbeResult(UNKNOWN, Some(GrpcProbeError(StatusUnimplemented, "StatusUnimplemented")))
    ensures FromError(e) == Some(DeadlineExceeded) ==>
      CheckService(RpcFailed(e)) == ProbeResult(UNKNOWN, Some(GrpcProbeError(StatusRPCFailure, "StatusRPCFailure")))
    ensures FromError(e) == Some(NotFound) ==>
      CheckService(RpcFailed(e)) == ProbeResult(SERVICE_UNKNOWN, Some(GrpcProbeError(StatusServiceNotFound, "StatusServiceNotFound")))
  {
  }

  /**
   * Every other RPC error, including one that carries no gRPC status, yields
   * UNKNOWN with no error at all.
   */
  lemma OtherRpcErrorFallsThrough(e: RpcError)
    requires FromError(e) !in {Some(Unimplemented), Some(DeadlineExceeded), Some(NotFound)}
    ensures CheckService(RpcFailed(e)) == ProbeResult(UNKNOWN, None)
  {
  }

  /** A classified error with code k arises from exactly one kind of raw result. */
  lemma ErrorCodeOrigin(raw: RawProbe)
    requires CheckService(raw).err.Some?
    ensures var k := CheckService(raw).err.value.code;
      && (k == StatusConnectionFailure <==> raw.DialFailed?)
      && (k == StatusUnimplemented <==> raw.RpcFailed? && FromError(raw.err) == Some(Unimplemented))
      && (k == StatusRPCFailure <==> raw.RpcFailed? && FromError(raw.err) == Some(DeadlineExceeded))
      && (k == StatusServiceNotFound <==> raw.RpcFailed? && FromError(raw.err) == Some(NotFound))
  {
  }
}
