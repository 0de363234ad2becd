/**
 * Building the upstream TLS configuration from the probe configuration
 * (buildGrpcCredentials). Reading the key files and parsing PEM data belong
 * to the Go standard library; their outcomes are given as KeyMaterial.
 */
module Credentials {
  import opened Wrappers
  import opened ProbeConfigs

  /** What the file system and the PEM/X.509 parsers would answer. */
  datatype KeyMaterial = KeyMaterial(
    keyPairLoads: bool,     // tls.LoadX509KeyPair succeeds on the client cert/key files
    caFileReadable: bool,   // os.ReadFile succeeds on the CA file
    caPemHasCerts: bool,    // AppendCertsFromPEM finds at least one certificate in it
    clientCaFileReadable: bool,   // os.ReadFile succeeds on the HTTPS client-verification CA file
    clientCaPemHasCerts: bool)    // AppendCertsFromPEM finds at least one certificate in that one

  /** A client identity loaded from a certificate file and a key file. */
  datatype KeyPair = KeyPair(certFile: string, keyFile: string)

  /** A pool of trusted roots, loaded from one CA file. */
  datatype CertPool = CertPool(caFile: string)

  /** The fields of tls.Config that buildGrpcCredentials sets; the rest keep their zero values. */
  datatype TlsConfig = TlsConfig(
    certificates: seq<KeyPair>,
    insecureSkipVerify: bool,
    rootCAs: Option<CertPool>,
    serverName: string)

  /** Why the credentials cannot be built; each is fatal at start-up. */
  datatype CredentialError =
    | KeyPairLoadFailed
    | RootCaReadFailed(caFile: string)
    | NoRootCaCertsParsed(caFile: string)
    | ClientCaReadFailed(caFile: string)
    | NoClientCaCertsParsed(caFile: string)

  /** The client key pair is loaded only when both of its files are named. */
  predicate LoadsKeyPair(c: ProbeConfig) {
    c.grpcTlsClientCert != "" && c.grpcTlsClientKey != ""
  }

  /** The CA file is consulted only when verification is on and a file is named. */
  predicate ReadsRootCa(c: ProbeConfig) {
    !c.grpcTlsNoVerify && c.grpcTlsCaCert != ""
  }

  /** The first step of the builder that fails, if any, in the builder's order. */
  function BuildError(c: ProbeConfig, files: KeyMaterial): (e: Option<CredentialError>)
    ensures e.None? <==>
      (LoadsKeyPair(c) ==> files.keyPairLoads) &&
      (ReadsRootCa(c) ==> files.caFileReadable && files.caPemHasCerts)
    ensures e == Some(KeyPairLoadFailed) <==> LoadsKeyPair(c) && !files.keyPairLoads
    ensures e.Some? ==> e.value.KeyPairLoadFailed? || e.value.RootCaReadFailed? || e.value.NoRootCaCertsParsed?
    ensures e.Some? && !e.value.KeyPairLoadFailed? ==> ReadsRootCa(c) && e.value.caFile == c.grpcTlsCaCert
    // past a loaded (or absent) key pair, an unreadable CA file is reported before an empty one
    ensures ((LoadsKeyPair(c) ==> files.keyPairLoads) && ReadsRootCa(c) && !files.caFileReadable)
      ==> e == Some(RootCaReadFailed(c.grpcTlsCaCert))
    ensures ((LoadsKeyPair(c) ==> files.keyPairLoads) && ReadsRootCa(c) && files.caFileReadable && !files.caPemHasCerts)
      ==> e == Some(NoRootCaCertsParsed(c.grpcTlsCaCert))
  {
    if LoadsKeyPair(c) && !files.keyPairLoads then Some(KeyPairLoadFailed)
    else if ReadsRootCa(c) && !files.caFileReadable then Some(RootCaReadFailed(c.grpcTlsCaCert))
    else if ReadsRootCa(c) && !files.caPemHasCerts then Some(NoRootCaCertsParsed(c.grpcTlsCaCert))
    else None
  }

  /** The configuration the builder produces when no step fails. */
  function TlsConfigFor(c: ProbeConfig): (t: TlsConfig)
    ensures t.insecureSkipVerify == c.grpcTlsNoVerify
    ensures t.rootCAs.Some? <==> ReadsRootCa(c)
    ensures t.rootCAs.Some? ==> t.rootCAs.value.caFile == c.grpcTlsCaCert
    ensures t.insecureSkipVerify ==> t.rootCAs.None?
    ensures t.serverName == c.grpcSniServerName
    ensures LoadsKeyPair(c) ==> t.certificates == [KeyPair(c.grpcTlsClientCert, c.grpcTlsClientKey)]
    ensures !LoadsKeyPair(c) ==> t.certificates == []
  {
    TlsConfig(
      if LoadsKeyPair(c) then [KeyPair(c.grpcTlsClientCert, c.grpcTlsClientKey)] else [],
      c.grpcTlsNoVerify,
      if ReadsRootCa(c) then Some(CertPool(c.grpcTlsCaCert)) else None,
      c.grpcSniServerName)
  }

  /**
   * buildGrpcCredentials: fills a tls.Config field by field. It fails on the
   * first step that fails and otherwise returns the configuration above.
   */
  method BuildGrpcCredentials(c: ProbeConfig, files: KeyMaterial) returns (res: Result<TlsConfig, CredentialError>)
    ensures res.Failure? <==> BuildError(c, files).Some?
    ensures res.Failure? ==> res.error == BuildError(c, files).value
    ensures res.Success? ==> res.value == TlsConfigFor(c)
  {
    var tlsCfg := TlsConfig([], false, None, "");
    if c.grpcTlsClientCert != "" && c.grpcTlsClientKey != "" {
      if !files.keyPairLoads {
        return Failure(KeyPairLoadFailed);
      }
      tlsCfg := tlsCfg.(certificates := [KeyPair(c.grpcTlsClientCert, c.grpcTlsClientKey)]);
    }
    if c.grpcTlsNoVerify {
      tlsCfg := tlsCfg.(insecureSkipVerify := true);
    } else if c.grpcTlsCaCert != "" {
      if !files.caFileReadable {
        return Failure(RootCaReadFailed(c.grpcTlsCaCert));
      }
      if !files.caPemHasCerts {
        return Failure(NoRootCaCertsParsed(c.grpcTlsCaCert));
      }
      tlsCfg := tlsCfg.(rootCAs := Some(CertPool(c.grpcTlsCaCert)));
    }
    if c.grpcSniServerName != "" {
      tlsCfg := tlsCfg.(serverName := c.grpcSniServerName);
    }
    return Success(tlsCfg);
  }

  /** The HTTPS listener's tls.Config: the pool client certificates are verified against, if any. */
  datatype ServerTlsConfig = ServerTlsConfig(clientCAs: Option<CertPool>, requireAndVerifyClientCert: bool)

  /**
   * The server-mode part of main before the listeners start: with client
   * verification on it loads the trust CA file, and fails when the file cannot
   * be read or holds no certificate; otherwise it keeps the zero tls.Config.
   */
  function ServerTlsConfigFor(c: ProbeConfig, files: KeyMaterial): (r: Result<ServerTlsConfig, CredentialError>)
    ensures r.Failure? <==> c.httpsTlsVerifyClient && !(files.clientCaFileReadable && files.clientCaPemHasCerts)
    ensures r.Failure? && !files.clientCaFileReadable ==> r.error == ClientCaReadFailed(c.httpsTlsVerifyCa)
    ensures r.Failure? && files.clientCaFileReadable ==> r.error == NoClientCaCertsParsed(c.httpsTlsVerifyCa)
    ensures r.Success? ==> r.value.requireAndVerifyClientCert == c.httpsTlsVerifyClient
    ensures r.Success? ==> (r.value.clientCAs.Some? <==> c.httpsTlsVerifyClient)
    ensures r.Success? && r.value.clientCAs.Some? ==> r.value.clientCAs.value.caFile == c.httpsTlsVerifyCa
  {
    if !c.httpsTlsVerifyClient then Success(ServerTlsConfig(None, false))
    else if !files.clientCaFileReadable then Failure(ClientCaReadFailed(c.httpsTlsVerifyCa))
    else if !files.clientCaPemHasCerts then Failure(NoClientCaCertsParsed(c.httpsTlsVerifyCa))
    else Success(ServerTlsConfig(Some(CertPool(c.httpsTlsVerifyCa)), true))
  }

  /**
   * With no-verify the CA file is never read: the outcome is the same whatever
   * the CA file would have held.
   */
  lemma NoVerifyIgnoresCaFile(c: ProbeConfig, files: KeyMaterial, other: KeyMaterial)
    requires c.grpcTlsNoVerify
    requires files.keyPairLoads == other.keyPairLoads
    ensures BuildError(c, files) == BuildError(c, other)
  {
  }

  /**
   * For a configuration that passed the start-up checks, no-verify yields a
   * configuration with no roots and no SNI override at all.
   */
  lemma ValidNoVerifyConfig(c: ProbeConfig)
    requires FirstViolation(c).None?
    requires c.grpcTlsNoVerify
    ensures TlsConfigFor(c) == TlsConfig(TlsConfigFor(c).certificates, true, None, "")
  {
  }
}
