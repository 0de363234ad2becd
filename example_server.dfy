/**
 * The example health server used to exercise the proxy. Both example
 * servers in the repository (example/app/src and example/src) have the same
 * Server type, NewServer, Check and Watch; this module models them once.
 * The random draw `rand.Intn(100)` and the `--unhealthyproability` flag are
 * parameters of Check.
 */
module ExampleServer {
  import opened Wrappers
  import opened HealthProtocol

  /** The only service name Check ever records. */
  const EchoService: string := "echo.EchoServer"

  /** The status recorded for a draw `r`: NOT_SERVING when `r <= unhealthyProbability`. */
  function DrawStatus(r: int, unhealthyProbability: int): (s: ServingStatus)
    ensures s == NOT_SERVING <==> r <= unhealthyProbability
    ensures s == NOT_SERVING || s == SERVING
  {
    if r <= unhealthyProbability then NOT_SERVING else SERVING
  }

  /** The number of draws in [0, n) that record NOT_SERVING. */
  function CountNotServing(n: nat, unhealthyProbability: int): nat {
    if n == 0 then 0
    else CountNotServing(n - 1, unhealthyProbability) + (if DrawStatus(n - 1, unhealthyProbability) == NOT_SERVING then 1 else 0)
  }

  /**
   * Of the 100 equally likely draws, unhealthyProbability + 1 (capped to
   * [0, 100]) record NOT_SERVING: the flag's percentage is off by one.
   */
  lemma {:induction false} NotServingDraws(n: nat, unhealthyProbability: int)
    ensures CountNotServing(n, unhealthyProbability) ==
      if unhealthyProbability < 0 then 0
      else if unhealthyProbability + 1 >= n then n
      else unhealthyProbability + 1
  {
    if n > 0 {
      NotServingDraws(n - 1, unhealthyProbability);
    }
  }

  /** With threshold 100 (indeed anything from 99 up) every draw records NOT_SERVING. */
  lemma FullThresholdAlwaysNotServing(r: int, unhealthyProbability: int)
    requires 0 <= r < 100 && unhealthyProbability >= 99
    ensures DrawStatus(r, unhealthyProbability) == NOT_SERVING
  {
  }

  /** With threshold 0 the draw r = 0 still records NOT_SERVING. */
  lemma ZeroThresholdNotServingAtZero()
    ensures DrawStatus(0, 0) == NOT_SERVING
    ensures CountNotServing(100, 0) == 1
  {
    NotServingDraws(100, 0);
  }

  /** A map whose only possible key is EchoService has at most one entry. */
  lemma {:induction false} AtMostOneEntry(m: map<string, ServingStatus>)
    requires m.Keys <= {EchoService}
    ensures |m| <= 1
  {
    if m.Keys != {} {
      assert m.Keys == {EchoService};
      assert |m.Keys| == 1;
    }
  }

  /** Server: the table of last-computed statuses, written and read by Check. */
  class HealthServer {
    var statusMap: map<string, ServingStatus>

    /** The table only ever holds EchoService. */
    ghost predicate Valid()
      reads this
    {
      statusMap.Keys <= {EchoService}
    }

    /** NewServer: an empty table. */
    constructor ()
      ensures statusMap == map[]
      ensures Valid()
    {
      statusMap := map[];
    }

    /**
     * Check. An empty service name asks for the overall status: SERVING, table
     * untouched. Otherwise the draw rewrites EchoService's entry and the
     * requested name is looked up; a missing name is a NotFound error.
     */
    method Check(service: string, r: int, unhealthyProbability: int)
      returns (resp: HealthCheckResponse, err: Option<RpcError>)
      requires 0 <= r < 100
      modifies this
      ensures service == "" ==>
        statusMap == old(statusMap) && resp == HealthCheckResponse(SERVING) && err == None
      ensures service != "" ==>
        statusMap == old(statusMap)[EchoService := DrawStatus(r, unhealthyProbability)]
      ensures service != "" && service in statusMap ==>
        resp == HealthCheckResponse(statusMap[service]) && err == None
      ensures service != "" && service !in statusMap ==>
        resp == HealthCheckResponse(UNKNOWN) && err == Some(StatusError(NotFound, "unknown service"))
      ensures service == EchoService ==>
        resp.status == DrawStatus(r, unhealthyProbability) && err == None
      ensures old(Valid()) ==> Valid() && |statusMap| <= 1
      ensures old(Valid()) && service != "" && service != EchoService ==>
        resp == HealthCheckResponse(UNKNOWN) && err == Some(StatusError(NotFound, "unknown service"))
    {
      if service == "" {
        if Valid() {
          AtMostOneEntry(statusMap);
        }
        return HealthCheckResponse(SERVING), None;
      }
      if r <= unhealthyProbability {
        statusMap := statusMap[EchoService := NOT_SERVING];
      } else {
        statusMap := statusMap[EchoService := SERVING];
      }
      if old(Valid()) {
        AtMostOneEntry(statusMap);
      }
      if service !in statusMap {
        return HealthCheckResponse(UNKNOWN), Some(StatusError(NotFound, "unknown service"));
      }
      return HealthCheckResponse(statusMap[service]), None;
    }

    /** Watch is not implemented. */
    method Watch(service: string) returns (err: RpcError)
      ensures err == StatusError(Unimplemented, "Watch is not implemented")
    {
      return StatusError(Unimplemented, "Watch is not implemented");
    }
  }
}
