/**
 * The vocabulary of the gRPC Health Checking Protocol (grpc.health.v1.Health)
 * and of gRPC status errors, as seen by both the proxy and the example server.
 */
module HealthProtocol {
  import opened Wrappers

  /**
   * HealthCheckResponse.ServingStatus, with the protocol's own value names.
   * The enum is open, as every proto3 enum is: a peer may send a number
   * outside 0-3, and that arrives as Unrecognized.
   */
  datatype ServingStatus = UNKNOWN | SERVING | NOT_SERVING | SERVICE_UNKNOWN | Unrecognized(number: int)

  /** The decimal digits of `n`. */
  function DecimalDigits(n: nat): (d: string)
    ensures |d| > 0
    decreases n
  {
    var digit := "0123456789"[n % 10];
    if n < 10 then [digit] else DecimalDigits(n / 10) + [digit]
  }

  /**
   * The text that the generated String() method prints for a status: the
   * value's name, or the number itself in decimal for a value the enum
   * does not list.
   */
  function StatusName(s: ServingStatus): (name: string)
    ensures name != []
  {
    match s
    case UNKNOWN => "UNKNOWN"
    case SERVING => "SERVING"
    case NOT_SERVING => "NOT_SERVING"
    case SERVICE_UNKNOWN => "SERVICE_UNKNOWN"
    case Unrecognized(n) => if n < 0 then "-" + DecimalDigits(-n) else DecimalDigits(n)
  }

  /** The gRPC status codes (google.golang.org/grpc/codes). */
  datatype Code =
    | OK | Canceled | Unknown | InvalidArgument | DeadlineExceeded | NotFound
    | AlreadyExists | PermissionDenied | ResourceExhausted | FailedPrecondition
    | Aborted | OutOfRange | Unimplemented | Internal | Unavailable | DataLoss
    | Unauthenticated

  /** The response message of Health/Check. */
  datatype HealthCheckResponse = HealthCheckResponse(status: ServingStatus)

  /**
   * The generated getter `resp.GetStatus()`: it is safe on a nil response and
   * then yields the enum's zero value, UNKNOWN.
   */
  function GetStatus(resp: Option<HealthCheckResponse>): (s: ServingStatus)
    ensures resp.None? ==> s == UNKNOWN
    ensures resp.Some? ==> s == resp.value.status
  {
    match resp
    case None => UNKNOWN
    case Some(r) => r.status
  }

  /**
   * An error returned by an RPC: either a gRPC status error (what
   * `status.Error`/`grpc.Errorf` build) or some other Go error value.
   */
  datatype RpcError = StatusError(code: Code, message: string) | OtherError(message: string)

  /**
   * `status.FromError(err)` reduced to what the callers test: the status code
   * when `ok` is true, None when the error carries no gRPC status.
   */
  function FromError(e: RpcError): (c: Option<Code>)
    ensures c.Some? <==> e.StatusError?
    ensures c.Some? ==> c.value == e.code
  {
    match e
    case StatusError(code, _) => Some(code)
    case OtherError(_) => None
  }
}
