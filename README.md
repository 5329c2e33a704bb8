# WEBrick HTTPS layer, modelled in Dafny

This project models `lib/webrick/https.rb`, the file that turns WEBrick's
plain HTTP server into an HTTPS server by re-opening `HTTPServer` and
`HTTPRequest`. It covers four pieces of that file:

- **Start-up** (`HTTPServer#initialize`). When SSL is enabled and no certificate is
  configured, the server creates a self-signed certificate for a fresh RSA
  key. It writes the key and the certificate back into its configuration.
  It then builds one shared `SSLContext` by copying eleven configuration
  entries into it (`set_ssl_context`).
- **Per connection** (`HTTPServer#run`). The steps are: wrap the accepted
  socket, run the handshake, make the SSL socket the thread's current
  socket, call the plain `run`, restore the raw socket, close the SSL socket.
  With SSL disabled, the raw socket goes straight to the plain `run`.
- **Per request** (`HTTPRequest#parse`, `#parse_uri`, `#meta_vars`). The
  request records the cipher and the client and server certificates. It
  picks the scheme passed to the plain URI parser. It writes the four
  entries `HTTPS`, `SSL_CIPHER`, `SSL_CLIENT_CERT` and `SSL_SERVER_CERT`
  into the CGI meta variables.
- **Defaults** (`Config::HTTP`). SSL is on, client verification is
  `VERIFY_NONE`, the comment is `"Generated by Ruby/OpenSSL"`, and every
  other SSL entry is `nil`.

Files and modules:

- `wrappers.dfy`, module `Wrappers`: `Option` stands for Ruby's nil-or-value. `Outcome` stands for return-or-raise.
- `x509.dfy`, module `X509`: keys, names, extensions and the certificate record. `SelfSignedCertificate` builds the generated certificate.
- `ssl.dfy`, module `Ssl`: the opaque OpenSSL handles, the sockets, and the `SslContext` class with its eleven fields.
- `config.dfy`, module `Config`: the `SslConfig` record (one field per `:SSL…` key) and the defaults.
- `request.dfy`, module `Request`: the `HttpsRequest` class.
- `trace.dfy`, module `Trace`: the events `run` produces, and lemmas about the history of all runs.
- `server.dfy`, module `Server`: the `HttpsServer` class and `SetSslContext`.

Calls into OpenSSL and into the plain WEBrick code are inputs of the model.
The fresh RSA key is a parameter. `OpenSSL::X509::Name.new` on a name that
is set is a function parameter `parseName`; it returns `None` when the name
is rejected. A `nil` name always raises. The
PEM encoder is a function parameter `pem`. The two `Time.now` readings are
integer parameters, in seconds. Whether the handshake, the plain `run` or
the plain `parse` raised is a boolean or `Outcome` argument.

Behaviour of the code worth noting:

- `run` has no `ensure`. The SSL socket is closed only when the handshake and the plain `run` both return.
  `SessionsClosed` states exactly this.
- A configured certificate without a key, or a key without a certificate, is not rejected. A configured key
  with no certificate is replaced by the generated key.
- The default comment is `"Generated by Ruby/OpenSSL"`.
- The defaults leave `:SSLCertName` unset, and `OpenSSL::X509::Name.new(nil)` raises. A server started from the
  defaults alone therefore fails in `initialize`; a name has to be given (`DefaultsAloneRaise`).
- `meta_vars` overwrites any of the four keys that the plain meta variables already hold.
- The version field of the generated certificate is set to the raw value 3. Section 4.1.2.1 of RFC 5280
  encodes X.509 v3 as 2. The model records 3 (`X509.GeneratedVersion`) and does not claim v3 conformance.

## Model

| member | source | states |
|---|---|---|
| `Config.DefaultsProvisionCommentedCertificate` | lib/webrick/https.rb:16-32 | The defaults ask for provisioning (SSL on, no certificate) but leave `SSLCertName` unset, and client verification is `VERIFY_NONE`. A certificate generated with the default comment carries it as its fifth extension. |
| `X509.GeneratedExtensions` | lib/webrick/https.rb:103-115 | The extensions are, in order, basicConstraints `CA:FALSE`, subjectKeyIdentifier `hash`, extendedKeyUsage `serverAuth` and authorityKeyIdentifier `keyid:always,issuer:always`. An nsComment with the comment follows iff a comment is configured, so there are 4 or 5. None is critical. |
| `X509.SelfSignedCertificate` | lib/webrick/https.rb:93-116 | The generated certificate has raw version 3 (not the v3 encoding 2) and serial 0. Subject and issuer are both the parsed name. It is signed by the key it certifies, with SHA-1. Its public key is the fresh key's public half. `not_before` is the first clock reading and `not_after` is the second reading plus 365 days. With a clock that does not run backwards, it is valid for at least 365 days. It carries the generated extensions and is a server-auth leaf. |
| `Ssl.SslContext.constructor` | lib/webrick/https.rb:122 | A new context has all eleven fields unset. |
| `Request.HttpsRequest.constructor` | lib/webrick/https.rb:39 | A new request has no cipher, no client certificate and no server certificate. |
| `Request.HttpsRequest.Parse` | lib/webrick/https.rb:43-48 | If the plain parse raises, nothing is recorded. Otherwise the cipher and the peer certificate are what the socket answers. Each is `nil` when the socket lacks the method. The server certificate is always the configured `SSLCertificate`. |
| `Request.HttpsRequest.ParseUriCall` | lib/webrick/https.rb:52-57 | With SSL on, the string and the scheme go to the plain `parse_uri`; a missing scheme becomes `"https"`. With SSL off, only the string is passed. |
| `Request.HttpsRequest.MetaVars` | lib/webrick/https.rb:61-70 | With SSL off, the result is the plain map. With SSL on, the keys are the plain keys plus the four SSL keys, and `HTTPS` is `"on"`. `SSL_CIPHER` is the cipher name, or `""`. Each certificate entry is the PEM of the certificate, or `""`. Every other entry keeps its value, and no other key is added. |
| `Request.DisabledParseUriIgnoresScheme` | lib/webrick/https.rb:52-57 | With SSL off, every scheme argument leads to the same call, the string alone. |
| `Request.MetaVarsSecurityEntriesAgree` | lib/webrick/https.rb:63-68 | The four SSL entries do not depend on the plain meta variables. |
| `Request.MetaVarsIdempotent` | lib/webrick/https.rb:61-70 | Exporting over an already exported map gives the same map. |
| `Request.ParseThenExport` | lib/webrick/https.rb:43-67 | A successful `Parse` on an SSL socket followed by `MetaVars`: `HTTPS` is `"on"`, and the entries are that socket's cipher name and peer certificate PEM and the configured certificate's PEM. Each is `""` when absent. |
| `Trace.PlainRunsPassSocketsThrough` | lib/webrick/https.rb:137-139 | With SSL off in every run, the history is exactly one delegation of each accepted raw socket, in order. Nothing is wrapped, accepted or closed. |
| `Trace.HandshakePrecedesDelegation` | lib/webrick/https.rb:130-134 | Every delegation of an SSL socket comes right after three steps: wrapping that socket, its handshake returning, and it becoming the current socket. |
| `Trace.CloseFollowsNormalReturn` | lib/webrick/https.rb:134-136 | Every close of an SSL socket comes right after the plain `run` on it returned and the raw socket was made current again. |
| `Trace.SessionsOpened` | lib/webrick/https.rb:130-131 | The number of SSL sockets created equals the number of runs with SSL on. |
| `Trace.SessionsClosed` | lib/webrick/https.rb:130-136 | The number of closes equals the number of SSL runs in which both the handshake and the plain `run` returned. A raise leaves the session open. |
| `Server.SetSslContext` | lib/webrick/https.rb:144-156 | Each of the eleven context fields equals its configuration entry, copied unchanged. |
| `Server.HttpsServer.constructor` | lib/webrick/https.rb:77 | The plain initialisation stores the configuration. There is no context and no history yet. |
| `Server.HttpsServer.InitializeSsl` | lib/webrick/https.rb:76-125 | With SSL off, nothing changes and no context is built. A configured certificate leaves the configuration unchanged. When provisioning is needed, a `nil` `SSLCertName` or a rejected name raises and leaves the configuration and context untouched. Otherwise the configuration becomes the old one with the fresh key and the self-signed certificate written in. With SSL on, a fresh context mirrors the final configuration, and provisioning is no longer needed. |
| `Server.HttpsServer.Run` | lib/webrick/https.rb:129-140 | The run is appended to the history with exactly the steps `RunTrace` gives it. The outcome is the raise of the handshake or of the plain `run`, or a normal return. The current socket is the SSL socket after a raise in the plain `run` and the raw socket after a normal return. Otherwise it is unchanged. |
| `Server.ConfiguredIdentityKept` | lib/webrick/https.rb:79-123 | With SSL on and a certificate configured, start-up keeps the configuration. The context serves exactly the configured certificate and key. |
| `Server.DefaultsAloneRaise` | lib/webrick/https.rb:29-123 | Started from the defaults alone, `initialize` raises at the name and builds no context; the configuration is unchanged. |
| `Server.DefaultStartUp` | lib/webrick/https.rb:79-123 | With the defaults plus an `SSLCertName` that parses, the context serves the fresh key and a self-signed certificate for it, whose subject is that name. The certificate has five extensions, the last one the default comment, and is valid for at least a year. |

## Left out

- RSA key generation (`RSA.new(512)`) and its progress output on standard error: the fresh key is a parameter.
- Distinguished-name parsing, extension encoding and SHA-1 signing are OpenSSL's work. Names come from the `parseName` parameter. An extension records the name and value strings given to the factory, not the bytes OpenSSL derives (the key-identifier hashes). A signature records the verifying key and the digest.
- PEM encoding: the `pem` parameter. A round trip through PEM text is therefore not modelled.
- The TLS handshake and all reads and writes on the SSL socket: only whether `accept` returned is modelled.
- `Thread.current[:WEBrickSocket]`: one variable, `current`, for a single thread; no concurrency.
- The log line with the generated certificate (`@logger.info`).
- The OpenSSL version appended to `:ServerSoftware`, which depends on a library constant.
- The bodies of the plain `initialize`, `parse`, `parse_uri`, `meta_vars` and `run`. They live in other WEBrick files, which are not part of this model. Their results and raises are inputs.
- Raises other than a rejected name, a failed handshake, and a raise in the plain `run` or plain `parse`: a failing `sign`, `SSLSocket.new` or `close`.
- Server.HttpsServer.Run: requires a finished start-up (a context whenever SSL is on). Turning `:SSLEnable` on after start-up, where Ruby would pass a `nil` context to `SSLSocket.new`, is not modelled.
- Request.HttpsRequest.Parse: the request holds its own copy of the configuration. The sharing of one Ruby hash between the server and its requests is not modelled.
- Request.HttpsRequest.ParseUriCall: `None` stands for a scheme left out, so an explicit `parse_uri(str, nil)` with SSL on, which Ruby forwards as `nil`, is not expressible.
- Ruby truthiness: `:SSLEnable` is a boolean. `:SSLClientCA` is a list of certificates, where Ruby also accepts a single one.
