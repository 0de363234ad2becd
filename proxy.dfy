/**
 * The proxy process: `init` checks the configuration, then `main` appends its
 * dial options to the package-level `opts` and, in CLI mode, probes once and
 * exits with the rendered code. In server mode it loads the HTTPS listener's
 * client CA and then starts the HTTP listeners, which are not modelled here;
 * each request they serve is Adapters.HealthHandler.
 */
module Proxy {
  import opened Wrappers
  import opened ProbeConfigs
  import opened Credentials
  import opened Probe
  import opened Adapters

  /** The argument of os.Exit for start-up failures. */
  const ExitStartupFailure: int := -1

  /** The dial options main appends to `opts` when credentials build. */
  function DialOptionsFor(c: ProbeConfig): (opts: seq<DialOption>)
    ensures |opts| == 2 && opts[0] == WithUserAgent(c.userAgent)
    ensures !c.grpcTls ==> opts[1] == WithTransportCredentials(InsecureCredentials)
    ensures c.grpcTls ==> opts[1] == WithTransportCredentials(TlsCredentials(TlsConfigFor(c)))
  {
    [WithUserAgent(c.userAgent),
     WithTransportCredentials(if c.grpcTls then TlsCredentials(TlsConfigFor(c)) else InsecureCredentials)]
  }

  /** The package-level state of the proxy: the parsed configuration and the dial options. */
  class ProxyState {
    const cfg: ProbeConfig
    var opts: seq<DialOption>

    /** The package variables after initialisation: `opts` starts empty. */
    constructor (cfg: ProbeConfig)
      ensures this.cfg == cfg && opts == []
    {
      this.cfg := cfg;
      opts := [];
    }

    /**
     * The first part of main: the user agent, then the transport credentials.
     * When TLS credentials cannot be built main exits before appending them.
     */
    method SetUpDialOptions(files: KeyMaterial) returns (ok: bool)
      modifies this`opts
      ensures ok <==> !cfg.grpcTls || BuildError(cfg, files).None?
      ensures ok ==> opts == old(opts) + DialOptionsFor(cfg)
      ensures !ok ==> opts == old(opts) + [WithUserAgent(cfg.userAgent)]
    {
      opts := opts + [WithUserAgent(cfg.userAgent)];
      if cfg.grpcTls {
        var creds := BuildGrpcCredentials(cfg, files);
        if creds.Failure? {
          return false;
        }
        opts := opts + [WithTransportCredentials(TlsCredentials(creds.value))];
      } else {
        opts := opts + [WithTransportCredentials(InsecureCredentials)];
      }
      ok := true;
    }

    /** The CLI branch of main: probe the configured service once and exit with the rendered code. */
    method RunCli(network: ProbeRequest -> RawProbe) returns (exit: int)
      ensures exit == CliExitCode(CheckService(network(ProbeRequest(cfg.grpcServerAddr, opts, cfg.serviceName))))
      ensures 0 <= exit <= StatusUnhealthy
    {
      var result := CheckService(network(ProbeRequest(cfg.grpcServerAddr, opts, cfg.serviceName)));
      if result.err.Some? {
        var pe := result.err.value;
        if pe.code == StatusConnectionFailure {
          return StatusConnectionFailure;
        } else if pe.code == StatusRPCFailure {
          return StatusRPCFailure;
        } else if pe.code == StatusUnimplemented {
          return StatusUnimplemented;
        } else if pe.code == StatusServiceNotFound {
          return StatusServiceNotFound;
        } else {
          return StatusUnhealthy;
        }
      }
      if result.status != HealthProtocol.SERVING {
        return StatusUnhealthy;
      }
      exit := 0;
    }
  }

  /**
   * A whole run of the process: `init`, then `main`. In CLI mode the result
   * is the exit code. In server mode main builds the HTTPS listener's TLS
   * configuration and exits when that fails; otherwise it hands over to the
   * HTTP listeners (None), which are not modelled.
   */
  method RunProcess(cfg: ProbeConfig, files: KeyMaterial, network: ProbeRequest -> RawProbe)
    returns (exit: Option<int>)
    ensures !ValidConfig(cfg) ==> exit == Some(ExitStartupFailure)
    ensures ValidConfig(cfg) && cfg.grpcTls && BuildError(cfg, files).Some? ==> exit == Some(ExitStartupFailure)
    ensures ValidConfig(cfg) && (!cfg.grpcTls || BuildError(cfg, files).None?) && cfg.runCli ==>
      exit == Some(CliExitCode(CheckService(network(ProbeRequest(cfg.grpcServerAddr, DialOptionsFor(cfg), cfg.serviceName)))))
    ensures ValidConfig(cfg) && (!cfg.grpcTls || BuildError(cfg, files).None?) && !cfg.runCli ==>
      exit == if ServerTlsConfigFor(cfg, files).Success? then None else Some(ExitStartupFailure)
    ensures exit == None ==> ValidConfig(cfg) && !cfg.runCli && ServerTlsConfigFor(cfg, files).Success?
    ensures exit == Some(0) ==>
      && ValidConfig(cfg) && cfg.runCli
      && CheckService(network(ProbeRequest(cfg.grpcServerAddr, DialOptionsFor(cfg), cfg.serviceName))) ==
         ProbeResult(HealthProtocol.SERVING, None)
  {
    PassesIffValid(cfg);
    if FirstViolation(cfg).Some? {
      return Some(ExitStartupFailure);
    }
    var proxy := new ProxyState(cfg);
    var ok := proxy.SetUpDialOptions(files);
    if !ok {
      return Some(ExitStartupFailure);
    }
    assert proxy.opts == DialOptionsFor(cfg);
    if cfg.runCli {
      var code := proxy.RunCli(network);
      return Some(code);
    }
    var serverTls := ServerTlsConfigFor(cfg, files);
    if serverTls.Failure? {
      return Some(ExitStartupFailure);
    }
    return None;
  }
}
