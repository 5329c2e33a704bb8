/**
 * The OpenSSL::SSL objects the HTTPS layer drives: the server context whose
 * fields are set one by one, the sockets a connection passes through, and
 * the opaque handles that are only ever copied.
 */
module Ssl {
  import opened Wrappers
  import opened X509

  /** `SSLSocket#cipher`: name, protocol version, secret bits, algorithm bits. */
  datatype Cipher = Cipher(name: string, protocol: string, bits: int, algorithmBits: int)

  /** An `OpenSSL::X509::Store` object (opaque). */
  datatype CertStore = CertStore(handle: nat)

  /** A Ruby proc given as `SSLVerifyCallback` (opaque). */
  datatype VerifyCallback = VerifyCallback(handle: nat)

  /** `OpenSSL::SSL::VERIFY_NONE`. */
  const VerifyNone := 0

  /** A raw transport connection handed over by the accept loop. */
  datatype TcpSocket = TcpSocket(fd: nat)

  /** A socket as the rest of the server sees it: the raw one, or an `SSLSocket` over it. */
  datatype Socket = Plain(tcp: TcpSocket) | Tls(io: TcpSocket, ctx: SslContext)

  /**
   * An `OpenSSL::SSL::SSLContext`. A fresh context has every field unset;
   * the server then assigns the eleven fields from its configuration.
   */
  class SslContext {
    var key: Option<RsaKey>
    var cert: Option<Certificate>
    var clientCa: Option<seq<Certificate>>
    var caFile: Option<string>
    var caPath: Option<string>
    var certStore: Option<CertStore>
    var verifyMode: Option<int>
    var verifyDepth: Option<int>
    var verifyCallback: Option<VerifyCallback>
    var timeout: Option<int>
    var options: Option<int>

    /** `SSLContext.new`: nothing set yet. */
    constructor ()
      ensures key == None && cert == None && clientCa == None
      ensures caFile == None && caPath == None && certStore == None
      ensures verifyMode == None && verifyDepth == None && verifyCallback == None
      ensures timeout == None && options == None
    {
      key, cert, clientCa := None, None, None;
      caFile, caPath, certStore := None, None, None;
      verifyMode, verifyDepth, verifyCallback := None, None, None;
      timeout, options := None, None;
    }
  }
}
