/**
 * The proxy's configuration record and the start-up argument checks that
 * `init` runs after the flags are parsed. `init` stops at the first failed
 * check, so the checks are modelled as a function returning the first
 * violated rule.
 */
module ProbeConfigs {
  import opened Wrappers

  /**
   * The fields of ProbeConfig that the core reads. Durations are Go
   * time.Duration values, an integer count of nanoseconds.
   */
  datatype ProbeConfig = ProbeConfig(
    grpcServerAddr: string,
    runCli: bool,
    httpListenAddr: string,
    serviceName: string,
    userAgent: string,
    connTimeout: int,
    rpcTimeout: int,
    grpcTls: bool,
    grpcTlsNoVerify: bool,
    grpcTlsCaCert: string,
    grpcTlsClientCert: string,
    grpcTlsClientKey: string,
    grpcSniServerName: string,
    httpsTlsServerCert: string,
    httpsTlsServerKey: string,
    httpsTlsVerifyCa: string,
    httpsTlsVerifyClient: bool)

  /** The argument checks, in the order `init` performs them. */
  datatype ArgRule =
    | GrpcAddrMissing
    | HttpListenAddrMissing
    | ConnTimeoutNotPositive
    | RpcTimeoutNotPositive
    | NoVerifyWithoutTls
    | CaCertWithoutTls
    | ClientCertWithoutTls
    | SniWithoutTls
    | ClientCertWithoutKey
    | ClientKeyWithoutCert
    | CaCertWithNoVerify
    | SniWithNoVerify
    | HttpsCertKeyUnpaired
    | VerifyClientWithoutCa

  /** Position of a rule in the check sequence. */
  function RuleOrder(k: ArgRule): (n: nat)
    ensures n < 14
  {
    match k
    case GrpcAddrMissing => 0
    case HttpListenAddrMissing => 1
    case ConnTimeoutNotPositive => 2
    case RpcTimeoutNotPositive => 3
    case NoVerifyWithoutTls => 4
    case CaCertWithoutTls => 5
    case ClientCertWithoutTls => 6
    case SniWithoutTls => 7
    case ClientCertWithoutKey => 8
    case ClientKeyWithoutCert => 9
    case CaCertWithNoVerify => 10
    case SniWithNoVerify => 11
    case HttpsCertKeyUnpaired => 12
    case VerifyClientWithoutCa => 13
  }

  /** Whether configuration `c` trips rule `k`. */
  predicate Violates(c: ProbeConfig, k: ArgRule) {
    match k
    case GrpcAddrMissing => c.grpcServerAddr == ""
    case HttpListenAddrMissing => !c.runCli && c.httpListenAddr == ""
    case ConnTimeoutNotPositive => c.connTimeout <= 0
    case RpcTimeoutNotPositive => c.rpcTimeout <= 0
    case NoVerifyWithoutTls => !c.grpcTls && c.grpcTlsNoVerify
    case CaCertWithoutTls => !c.grpcTls && c.grpcTlsCaCert != ""
    case ClientCertWithoutTls => !c.grpcTls && c.grpcTlsClientCert != ""
    case SniWithoutTls => !c.grpcTls && c.grpcSniServerName != ""
    case ClientCertWithoutKey => c.grpcTlsClientCert != "" && c.grpcTlsClientKey == ""
    case ClientKeyWithoutCert => c.grpcTlsClientCert == "" && c.grpcTlsClientKey != ""
    case CaCertWithNoVerify => c.grpcTlsNoVerify && c.grpcTlsCaCert != ""
    case SniWithNoVerify => c.grpcTlsNoVerify && c.grpcSniServerName != ""
    case HttpsCertKeyUnpaired =>
      (c.httpsTlsServerCert == "" && c.httpsTlsServerKey != "") ||
      (c.httpsTlsServerCert != "" && c.httpsTlsServerKey == "")
    case VerifyClientWithoutCa => c.httpsTlsVerifyCa == "" && c.httpsTlsVerifyClient
  }

  /**
   * The rule `init` reports (after which it exits), or None when every check
   * passes. The result is the earliest violated rule in check order; the
   * first two clauses together say None is returned exactly when no rule is
   * violated.
   */
  function FirstViolation(c: ProbeConfig): (r: Option<ArgRule>)
    ensures r.Some? ==> Violates(c, r.value)
    ensures r.None? ==> forall k :: !Violates(c, k)
    ensures r.Some? ==> forall k :: RuleOrder(k) < RuleOrder(r.value) ==> !Violates(c, k)
  {
    if c.grpcServerAddr == "" then Some(GrpcAddrMissing)
    else if !c.runCli && c.httpListenAddr == "" then Some(HttpListenAddrMissing)
    else if c.connTimeout <= 0 then Some(ConnTimeoutNotPositive)
    else if c.rpcTimeout <= 0 then Some(RpcTimeoutNotPositive)
    else if !c.grpcTls && c.grpcTlsNoVerify then Some(NoVerifyWithoutTls)
    else if !c.grpcTls && c.grpcTlsCaCert != "" then Some(CaCertWithoutTls)
    else if !c.grpcTls && c.grpcTlsClientCert != "" then Some(ClientCertWithoutTls)
    else if !c.grpcTls && c.grpcSniServerName != "" then Some(SniWithoutTls)
    else if c.grpcTlsClientCert != "" && c.grpcTlsClientKey == "" then Some(ClientCertWithoutKey)
    else if c.grpcTlsClientCert == "" && c.grpcTlsClientKey != "" then Some(ClientKeyWithoutCert)
    else if c.grpcTlsNoVerify && c.grpcTlsCaCert != "" then Some(CaCertWithNoVerify)
    else if c.grpcTlsNoVerify && c.grpcSniServerName != "" then Some(SniWithNoVerify)
    else if (c.httpsTlsServerCert == "") != (c.httpsTlsServerKey == "") then Some(HttpsCertKeyUnpaired)
    else if c.httpsTlsVerifyCa == "" && c.httpsTlsVerifyClient then Some(VerifyClientWithoutCa)
    else None
  }

  /**
   * The configuration invariants that the checks establish, stated as
   * pairings, exclusions and co-requirements rather than as the checks.
   */
  predicate ValidConfig(c: ProbeConfig) {
    && c.grpcServerAddr != ""
    && (c.runCli || c.httpListenAddr != "")
    && c.connTimeout > 0 && c.rpcTimeout > 0
    // client certificate and key come as a pair
    && ((c.grpcTlsClientCert == "") <==> (c.grpcTlsClientKey == ""))
    // no-verify leaves no use for a CA bundle or an SNI override
    && (c.grpcTlsNoVerify ==> c.grpcTlsCaCert == "" && c.grpcSniServerName == "")
    // every upstream TLS option needs TLS itself
    && ((c.grpcTlsNoVerify || c.grpcTlsCaCert != "" || c.grpcTlsClientCert != ""
         || c.grpcTlsClientKey != "" || c.grpcSniServerName != "") ==> c.grpcTls)
    // the HTTPS listener's certificate and key come as a pair
    && ((c.httpsTlsServerCert == "") <==> (c.httpsTlsServerKey == ""))
    // client verification needs a trust CA
    && (c.httpsTlsVerifyClient ==> c.httpsTlsVerifyCa != "")
  }

  /** `init` lets a configuration through exactly when it is valid. */
  lemma PassesIffValid(c: ProbeConfig)
    ensures FirstViolation(c).None? <==> ValidConfig(c)
  {
  }

  /**
   * A client key alone is never reported by a TLS rule, yet it cannot reach
   * a running proxy without TLS: ClientKeyWithoutCert or ClientCertWithoutTls
   * catches it first.
   */
  lemma ClientKeyNeedsTls(c: ProbeConfig)
    requires FirstViolation(c).None?
    requires c.grpcTlsClientKey != ""
    ensures c.grpcTls && c.grpcTlsClientCert != ""
  {
  }
}
