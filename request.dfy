/**
 * What the HTTPS layer adds to `WEBrick::HTTPRequest`: it records the
 * connection's cipher and certificates after the plain parse, chooses the
 * scheme a request URI is resolved against, and adds the four SSL entries
 * to the CGI-style meta variables.
 */
module Request {
  import opened Wrappers
  import opened X509
  import opened Ssl
  import opened Config

  /** The answer to `socket.respond_to?(m) ? socket.m : nil`: no such method, or what it returned. */
  datatype Probe<T> = NoMethod | Answers(result: Option<T>)

  function Query<T>(p: Probe<T>): Option<T> {
    match p
    case NoMethod => None
    case Answers(r) => r
  }

  /**
   * What `parse` can learn from the socket it reads the request from. A raw
   * socket, and the `nil` of `parse(socket = nil)`, answer neither method:
   * `SocketView(NoMethod, NoMethod)`.
   */
  datatype SocketView = SocketView(cipher: Probe<Cipher>, peerCert: Probe<Certificate>)

  /** What an `SSLSocket` answers once its handshake has produced `cipher` and `peerCert`. */
  function TlsView(cipher: Option<Cipher>, peerCert: Option<Certificate>): SocketView {
    SocketView(Answers(cipher), Answers(peerCert))
  }

  /** The plain parse raised (a malformed request, a closed connection). */
  datatype ParseError = BaseParseRaised

  /** A call of the plain `parse_uri`: the string, and the scheme argument if one is passed. */
  datatype UriCall = UriCall(str: string, scheme: Option<string>)

  /** The default of `parse_uri`'s scheme parameter in the HTTPS layer. */
  const DefaultScheme := "https"

  /** The meta-variable keys the HTTPS layer writes. */
  const SecurityKeys: set<string> := {"HTTPS", "SSL_CIPHER", "SSL_CLIENT_CERT", "SSL_SERVER_CERT"}

  /** `@cipher ? @cipher[0] : ""`. */
  function CipherName(cipher: Option<Cipher>): string {
    if cipher.Some? then cipher.value.name else ""
  }

  /** `cert ? cert.to_pem : ""`, with `pem` standing for OpenSSL's PEM encoder. */
  function PemOrEmpty(cert: Option<Certificate>, pem: Certificate -> string): string {
    if cert.Some? then pem(cert.value) else ""
  }

  class HttpsRequest {
    /** The server configuration the request was created with. */
    var config: SslConfig
    var cipher: Option<Cipher>
    var clientCert: Option<Certificate>
    var serverCert: Option<Certificate>

    constructor (config: SslConfig)
      ensures this.config == config
      ensures cipher == None && clientCert == None && serverCert == None
    {
      this.config := config;
      cipher, clientCert, serverCert := None, None, None;
    }

    /**
     * `parse`: the plain parse first (its outcome is `baseParse`); if it
     * returns, the cipher and client certificate come from the socket when it
     * answers for them and are `nil` otherwise, and the server certificate is
     * the configured one whatever the socket is.
     */
    method Parse(socket: SocketView, baseParse: Outcome<ParseError>) returns (outcome: Outcome<ParseError>)
      modifies this
      ensures outcome == baseParse && config == old(config)
      ensures baseParse.Fail? ==> cipher == old(cipher) && clientCert == old(clientCert) && serverCert == old(serverCert)
      ensures baseParse.Pass? ==> cipher == Query(socket.cipher) && clientCert == Query(socket.peerCert)
      ensures baseParse.Pass? ==> serverCert == config.certificate
      ensures baseParse.Pass? && socket.cipher.NoMethod? ==> cipher == None
      ensures baseParse.Pass? && socket.peerCert.NoMethod? ==> clientCert == None
    {
      if baseParse.Fail? {
        return baseParse;
      }
      cipher := if socket.cipher.Answers? then socket.cipher.result else None;
      clientCert := if socket.peerCert.Answers? then socket.peerCert.result else None;
      serverCert := config.certificate;
      outcome := Pass;
    }

    /**
     * `parse_uri(str, scheme = "https")`: the call made to the plain
     * `parse_uri`. With SSL on the scheme is passed on (`None` here means the
     * caller left it out); with SSL off it is dropped and the plain
     * `parse_uri` falls back on its own default.
     */
    function ParseUriCall(str: string, scheme: Option<string>): (call: UriCall)
      reads this
      ensures call.str == str
      ensures config.sslEnable ==> call.scheme.Some?
      ensures config.sslEnable && scheme.Some? ==> call.scheme == scheme
      ensures config.sslEnable && scheme.None? ==> call.scheme == Some(DefaultScheme)
      ensures !config.sslEnable ==> call.scheme == None
    {
      if config.sslEnable then UriCall(str, Some(scheme.GetOr(DefaultScheme))) else UriCall(str, None)
    }

    /**
     * `meta_vars`: the plain meta variables `base`, and with SSL on the four
     * SSL entries written over them, each with an empty-string fallback.
     * `pem` stands for OpenSSL's PEM encoder.
     */
    function MetaVars(base: map<string, string>, pem: Certificate -> string): (meta: map<string, string>)
      reads this
      ensures !config.sslEnable ==> meta == base
      ensures config.sslEnable ==> meta.Keys == base.Keys + SecurityKeys
      ensures config.sslEnable ==> meta["HTTPS"] == "on"
      ensures config.sslEnable ==> meta["SSL_CIPHER"] == if cipher.Some? then cipher.value.name else ""
      ensures config.sslEnable ==> meta["SSL_CLIENT_CERT"] == if clientCert.Some? then pem(clientCert.value) else ""
      ensures config.sslEnable ==> meta["SSL_SERVER_CERT"] == if serverCert.Some? then pem(serverCert.value) else ""
      ensures forall k :: k in base && k !in SecurityKeys ==> k in meta && meta[k] == base[k]
      ensures forall k :: k in meta && k !in SecurityKeys ==> k in base
    {
      if config.sslEnable then
        base["HTTPS" := "on"]
            ["SSL_CIPHER" := CipherName(cipher)]
            ["SSL_CLIENT_CERT" := PemOrEmpty(clientCert, pem)]
            ["SSL_SERVER_CERT" := PemOrEmpty(serverCert, pem)]
      else
        base
    }
  }

  /**
   * With SSL off the scheme argument makes no difference: every scheme leads
   * to the same call of the plain `parse_uri`.
   */
  lemma DisabledParseUriIgnoresScheme(r: HttpsRequest, str: string, a: Option<string>, b: Option<string>)
    requires !r.config.sslEnable
    ensures r.ParseUriCall(str, a) == r.ParseUriCall(str, b) == UriCall(str, None)
  {
  }

  /**
   * The SSL entries depend only on the connection and the configured
   * certificate: two requests with the same fields write the same four
   * entries over any two plain maps, and keep each plain map's other entries.
   */
  lemma MetaVarsSecurityEntriesAgree(r: HttpsRequest, base1: map<string, string>, base2: map<string, string>,
                                     pem: Certificate -> string)
    requires r.config.sslEnable
    ensures forall k :: k in SecurityKeys ==> r.MetaVars(base1, pem)[k] == r.MetaVars(base2, pem)[k]
  {
  }

  /**
   * Exporting again over an already exported map changes nothing: the four
   * entries are overwritten with the same values.
   */
  lemma MetaVarsIdempotent(r: HttpsRequest, base: map<string, string>, pem: Certificate -> string)
    ensures r.MetaVars(r.MetaVars(base, pem), pem) == r.MetaVars(base, pem)
  {
  }

  /**
   * A successful `parse` on an SSL socket followed by `meta_vars`: the
   * metadata reports that socket's cipher and client certificate and the
   * configured server certificate, with "" for each that is absent.
   */
  method ParseThenExport(r: HttpsRequest, cipher: Option<Cipher>, peerCert: Option<Certificate>,
                         base: map<string, string>, pem: Certificate -> string)
    returns (meta: map<string, string>)
    requires r.config.sslEnable
    modifies r
    ensures r.config == old(r.config) && meta == r.MetaVars(base, pem)
    ensures meta.Keys == base.Keys + SecurityKeys
    ensures meta["HTTPS"] == "on"
    ensures meta["SSL_CIPHER"] == CipherName(cipher)
    ensures meta["SSL_CLIENT_CERT"] == PemOrEmpty(peerCert, pem)
    ensures meta["SSL_SERVER_CERT"] == PemOrEmpty(r.config.certificate, pem)
  {
    var outcome := r.Parse(TlsView(cipher, peerCert), Pass);
    meta := r.MetaVars(base, pem);
  }
}
