/**
 * What the HTTPS layer adds to `WEBrick::HTTPServer`: at start-up it
 * provisions a self-signed identity when none is configured and builds the
 * shared SSL context; on each accepted connection `run` wraps the socket,
 * performs the handshake and hands the SSL socket to the plain `run`.
 */
module Server {
  import opened Wrappers
  import opened X509
  import opened Ssl
  import opened Config
  import opened Trace

  /** `OpenSSL::X509::Name.new(@config[:SSLCertName])` raised. */
  datatype InitError = CertNameRejected

  /** How `run` ended: the handshake raised, or the plain `run` raised. */
  datatype RunError = HandshakeRaised | DelegateRaised

  /** Each of the eleven context fields holds the configuration entry it is copied from. */
  ghost predicate Mirrors(ctx: SslContext, config: SslConfig)
    reads ctx
  {
    && ctx.key == config.privateKey
    && ctx.cert == config.certificate
    && ctx.clientCa == config.clientCa
    && ctx.caFile == config.caFile
    && ctx.caPath == config.caPath
    && ctx.certStore == config.certStore
    && ctx.verifyMode == config.verifyClient
    && ctx.verifyDepth == config.verifyDepth
    && ctx.verifyCallback == config.verifyCallback
    && ctx.timeout == config.timeout
    && ctx.options == config.options
  }

  /** `set_ssl_context`: copy eleven entries into the context, none of them reinterpreted. */
  method SetSslContext(ctx: SslContext, config: SslConfig)
    modifies ctx
    ensures Mirrors(ctx, config)
  {
    ctx.key := config.privateKey;
    ctx.cert := config.certificate;
    ctx.clientCa := config.clientCa;
    ctx.caFile := config.caFile;
    ctx.caPath := config.caPath;
    ctx.certStore := config.certStore;
    ctx.verifyMode := config.verifyClient;
    ctx.verifyDepth := config.verifyDepth;
    ctx.verifyCallback := config.verifyCallback;
    ctx.timeout := config.timeout;
    ctx.options := config.options;
  }

  class HttpsServer {
    var config: SslConfig
    /** `@ctx`: the one context every connection shares; unset while SSL is off. */
    var ctx: SslContext?
    /** `Thread.current[:WEBrickSocket]`, for the single thread modelled. */
    var current: Option<Socket>
    /** The runs so far, and the steps they took. */
    ghost var runs: seq<RunRecord>
    ghost var log: seq<Event>

    ghost predicate Valid()
      reads this, ctx
    {
      && log == Flatten(runs)
      && (ctx != null ==> config.sslEnable && Mirrors(ctx, config))
    }

    /** Start-up is over: with SSL on there is a context to wrap connections with. */
    ghost predicate Ready()
      reads this, ctx
    {
      Valid() && (config.sslEnable ==> ctx != null)
    }

    /** The context a run wraps its socket with, or `None` when SSL is off. */
    ghost function Secure(): Option<SslContext>
      reads this
      requires config.sslEnable ==> ctx != null
    {
      if config.sslEnable then Some(ctx) else None
    }

    /** The plain `initialize`, which stores the merged configuration. */
    constructor (config: SslConfig)
      ensures Valid()
      ensures this.config == config && ctx == null && current == None && runs == []
    {
      this.config := config;
      ctx := null;
      current := None;
      runs, log := [], [];
    }

    /**
     * The HTTPS part of `initialize`. With SSL on and no certificate it
     * generates one for `key` (the fresh RSA key), naming it with
     * `OpenSSL::X509::Name.new(SSLCertName)` and reading the clock twice; it
     * writes key and certificate back into the configuration. `Name.new`
     * raises on a `nil` name, and `parseName` gives its answer on the pairs
     * of a name that is set (`None`: rejected, and `initialize` raises).
     * With SSL on it then builds the context from the configuration.
     */
    method InitializeSsl(key: RsaKey, parseName: NameSpec -> Option<Name>,
                         notBefore: int, secondReading: int) returns (outcome: Outcome<InitError>)
      requires Valid() && ctx == null
      modifies this
      ensures Valid() && runs == old(runs) && current == old(current)
      ensures outcome.Pass? ==> Ready()
      ensures !old(config).sslEnable ==> outcome.Pass? && config == old(config) && ctx == null
      ensures old(config).sslEnable && old(config).certificate.Some? ==> outcome.Pass? && config == old(config)
      ensures NeedsProvisioning(old(config)) && old(config).certName.None? ==>
                outcome == Fail(CertNameRejected) && config == old(config) && ctx == null
      ensures NeedsProvisioning(old(config)) && old(config).certName.Some? && parseName(old(config).certName.value).None? ==>
                outcome == Fail(CertNameRejected) && config == old(config) && ctx == null
      ensures NeedsProvisioning(old(config)) && old(config).certName.Some? && parseName(old(config).certName.value).Some? ==>
                var cert := SelfSignedCertificate(key, parseName(old(config).certName.value).value,
                                                  old(config).certComment, notBefore, secondReading);
                outcome.Pass? && config == old(config).(privateKey := Some(key), certificate := Some(cert))
      ensures old(config).sslEnable && outcome.Pass? ==> fresh(ctx) && !NeedsProvisioning(config)
    {
      if !config.sslEnable {
        return Pass;
      }
      if config.certificate.None? {
        if config.certName.None? {
          return Fail(CertNameRejected);
        }
        var name := parseName(config.certName.value);
        if name.None? {
          return Fail(CertNameRejected);
        }
        var cert := SelfSignedCertificate(key, name.value, config.certComment, notBefore, secondReading);
        config := config.(privateKey := Some(key));
        config := config.(certificate := Some(cert));
      }
      var c := new SslContext();
      SetSslContext(c, config);
      ctx := c;
      outcome := Pass;
    }

    /** Appends one run and the steps it took to the history, keeping the two in step. */
    ghost method Record(record: RunRecord, steps: seq<Event>)
      requires Valid() && steps == RunTrace(record)
      modifies this`runs, this`log
      ensures Valid()
      ensures runs == old(runs) + [record] && log == old(log) + steps
    {
      FlattenSnoc(runs, record);
      runs := runs + [record];
      log := log + steps;
    }

    /**
     * `run(sock)`. With SSL on: wrap `sock` with the shared context, accept
     * (the handshake), make the SSL socket current, call the plain `run` on
     * it, make `sock` current again, close the SSL socket. A raise in the
     * handshake or the plain `run` ends `run` there. With SSL off the plain
     * `run` gets `sock` itself.
     */
    method Run(sock: TcpSocket, handshakeCompletes: bool, delegateReturns: bool)
      returns (outcome: Outcome<RunError>)
      requires Ready()
      modifies this`current, this`runs, this`log
      ensures Ready()
      ensures runs == old(runs) + [RunRecord(sock, Secure(), handshakeCompletes, delegateReturns)]
      ensures log == old(log) + RunTrace(RunRecord(sock, Secure(), handshakeCompletes, delegateReturns))
      ensures config.sslEnable && !handshakeCompletes ==> outcome == Fail(HandshakeRaised)
      ensures (!config.sslEnable || handshakeCompletes) && !delegateReturns ==> outcome == Fail(DelegateRaised)
      ensures (!config.sslEnable || handshakeCompletes) && delegateReturns ==> outcome == Pass
      ensures !config.sslEnable || !handshakeCompletes ==> current == old(current)
      ensures config.sslEnable && handshakeCompletes && !delegateReturns ==> current == Some(Tls(sock, ctx))
      ensures config.sslEnable && handshakeCompletes && delegateReturns ==> current == Some(Plain(sock))
    {
      ghost var record := RunRecord(sock, Secure(), handshakeCompletes, delegateReturns);
      ghost var steps: seq<Event> := [];
      if config.sslEnable {
        var ssl := Tls(sock, ctx);
        steps := steps + [Wrap(sock, ssl)];
        steps := steps + [Accept(ssl, handshakeCompletes)];
        if !handshakeCompletes {
          outcome := Fail(HandshakeRaised);
        } else {
          current := Some(ssl);
          steps := steps + [SetCurrent(ssl)];
          steps := steps + [Delegate(ssl, delegateReturns)];
          if !delegateReturns {
            outcome := Fail(DelegateRaised);
          } else {
            current := Some(Plain(sock));
            steps := steps + [SetCurrent(Plain(sock))];
            steps := steps + [Close(ssl)];
            outcome := Pass;
          }
        }
      } else {
        steps := steps + [Delegate(Plain(sock), delegateReturns)];
        outcome := if delegateReturns then Pass else Fail(DelegateRaised);
      }
      assert steps == RunTrace(record);
      Record(record, steps);
    }
  }

  /**
   * A certificate that is configured is never replaced, and neither is its
   * key; the context then serves exactly that pair.
   */
  method ConfiguredIdentityKept(config: SslConfig, key: RsaKey, parseName: NameSpec -> Option<Name>,
                                t0: int, t1: int) returns (s: HttpsServer)
    requires config.sslEnable && config.certificate.Some?
    ensures s.config == config && s.ctx != null
    ensures s.ctx.cert == config.certificate && s.ctx.key == config.privateKey
  {
    s := new HttpsServer(config);
    var outcome := s.InitializeSsl(key, parseName, t0, t1);
  }

  /**
   * The defaults alone do not start: no `SSLCertName` is set, so naming the
   * generated certificate raises and no context is built.
   */
  method DefaultsAloneRaise(key: RsaKey, parseName: NameSpec -> Option<Name>, t0: int, t1: int)
    returns (s: HttpsServer, outcome: Outcome<InitError>)
    ensures outcome == Fail(CertNameRejected)
    ensures s.config == DefaultSslConfig && s.ctx == null
  {
    s := new HttpsServer(DefaultSslConfig);
    outcome := s.InitializeSsl(key, parseName, t0, t1);
  }

  /**
   * With the defaults plus a name that parses, start-up generates a
   * self-signed certificate for the fresh key, valid for at least a year
   * when the clock does not run backwards, and the context serves it.
   */
  method DefaultStartUp(spec: NameSpec, key: RsaKey, parseName: NameSpec -> Option<Name>, t0: int, t1: int)
    returns (s: HttpsServer)
    requires parseName(spec).Some?
    requires t0 <= t1
    ensures s.ctx != null && s.ctx.key == Some(key) && s.ctx.cert.Some?
    ensures IsSelfSigned(s.ctx.cert.value) && s.ctx.cert.value.subject == parseName(spec).value
    ensures s.ctx.cert.value.publicKey == key.publicKey
    ensures s.ctx.cert.value.notAfter - s.ctx.cert.value.notBefore >= ValiditySeconds
    ensures |s.ctx.cert.value.extensions| == 5
    ensures s.ctx.cert.value.extensions[4] == NsComment(DefaultCertComment)
  {
    s := new HttpsServer(DefaultSslConfig.(certName := Some(spec)));
    var outcome := s.InitializeSsl(key, parseName, t0, t1);
  }
}
