/**
 * The proxy probing the example server: the server's answer, carried over
 * the wire unchanged, classified by checkService and rendered by both
 * adapters.
 */
module Scenarios {
  import opened Wrappers
  import opened HealthProtocol
  import opened Probe
  import opened Adapters
  import opened ExampleServer

  /** How the generated client stub returns a server's answer: the error wins, and then the response is nil. */
  function OverTheWire(resp: HealthCheckResponse, err: Option<RpcError>): (raw: RawProbe)
    ensures err.Some? ==> raw == RpcFailed(err.value)
    ensures err.None? ==> raw == RpcSucceeded(resp)
  {
    if err.Some? then RpcFailed(err.value) else RpcSucceeded(resp)
  }

  /**
   * One probe of a freshly checked example server. Exit code and HTTP reply
   * follow the draw for EchoService, the overall status for the empty name,
   * and NotFound for every other name.
   */
  method ProbeExampleServer(server: HealthServer, service: string, r: int, unhealthyProbability: int,
                            flServiceName: string)
    returns (exit: int, reply: HttpReply)
    requires 0 <= r < 100
    requires server.Valid()
    modifies server
    ensures server.Valid()
    ensures service == "" ==> server.statusMap == old(server.statusMap)
    ensures service != "" ==>
      server.statusMap == old(server.statusMap)[EchoService := DrawStatus(r, unhealthyProbability)]
    ensures service == "" ==> exit == 0 && reply == HttpReply(HttpOK, flServiceName + " SERVING")
    ensures service == EchoService ==>
      && (exit == 0 <==> r > unhealthyProbability)
      && (exit == 0 ==> reply == HttpReply(HttpOK, flServiceName + " SERVING"))
      && (exit != 0 ==> exit == StatusUnhealthy && reply == HttpReply(HttpBadGateway, flServiceName + " NOT_SERVING\n"))
    ensures service != "" && service != EchoService ==>
      exit == StatusServiceNotFound && reply == HttpReply(HttpNotFound, flServiceName + " ServiceNotFound\n")
  {
    var resp, err := server.Check(service, r, unhealthyProbability);
    var result := CheckService(OverTheWire(resp, err));
    exit := CliExitCode(result);
    reply := HealthReply(flServiceName, result);
  }

  /** With threshold 100 the probe of EchoService always exits 5 and answers 502. */
  method ProbeFullyUnhealthyServer(server: HealthServer, r: int, flServiceName: string)
    returns (exit: int, reply: HttpReply)
    requires 0 <= r < 100
    requires server.Valid()
    modifies server
    ensures server.statusMap == old(server.statusMap)[EchoService := NOT_SERVING]
    ensures server.Valid()
    ensures exit == StatusUnhealthy && reply == HttpReply(HttpBadGateway, flServiceName + " NOT_SERVING\n")
  {
    exit, reply := ProbeExampleServer(server, EchoService, r, 100, flServiceName);
  }
}
