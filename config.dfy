/**
 * The SSL entries of WEBrick's HTTP configuration hash. Every entry may be
 * `nil` in Ruby; `SSLEnable` is read only for its truth value.
 */
module Config {
  import opened Wrappers
  import opened X509
  import opened Ssl

  datatype SslConfig = SslConfig(
    sslEnable: bool,                       // :SSLEnable
    certificate: Option<Certificate>,      // :SSLCertificate
    privateKey: Option<RsaKey>,            // :SSLPrivateKey
    clientCa: Option<seq<Certificate>>,    // :SSLClientCA
    caFile: Option<string>,                // :SSLCACertificateFile
    caPath: Option<string>,                // :SSLCACertificatePath
    certStore: Option<CertStore>,          // :SSLCertificateStore
    verifyClient: Option<int>,             // :SSLVerifyClient
    verifyDepth: Option<int>,              // :SSLVerifyDepth
    verifyCallback: Option<VerifyCallback>,// :SSLVerifyCallback
    timeout: Option<int>,                  // :SSLTimeout
    options: Option<int>,                  // :SSLOptions
    certName: Option<NameSpec>,            // :SSLCertName
    certComment: Option<string>)           // :SSLCertComment

  const DefaultCertComment := "Generated by Ruby/OpenSSL"

  /** The defaults merged into `Config::HTTP`: SSL on, no client verification, a comment, all else nil. */
  const DefaultSslConfig := SslConfig(
    sslEnable := true,
    certificate := None,
    privateKey := None,
    clientCa := None,
    caFile := None,
    caPath := None,
    certStore := None,
    verifyClient := Some(VerifyNone),
    verifyDepth := None,
    verifyCallback := None,
    timeout := None,
    options := None,
    certName := None,
    certComment := Some(DefaultCertComment))

  /** The server generates its own identity exactly when SSL is on and no certificate is configured. */
  predicate NeedsProvisioning(config: SslConfig) {
    config.sslEnable && config.certificate.None?
  }

  /**
   * The defaults ask for a generated certificate but give no name for it;
   * a certificate generated with the default comment carries that comment as
   * a fifth extension.
   */
  lemma DefaultsProvisionCommentedCertificate(key: RsaKey, name: Name, t0: int, t1: int)
    ensures NeedsProvisioning(DefaultSslConfig) && DefaultSslConfig.certName.None?
    ensures DefaultSslConfig.verifyClient == Some(VerifyNone)
    ensures var cert := SelfSignedCertificate(key, name, DefaultSslConfig.certComment, t0, t1);
            |cert.extensions| == 5 && cert.extensions[4] == NsComment(DefaultCertComment)
  {
  }
}
