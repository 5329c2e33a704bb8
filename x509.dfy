/**
 * The X.509 values that WEBrick's HTTPS layer builds or passes around,
 * written as plain records. Key generation, distinguished-name parsing,
 * extension encoding and signing happen inside OpenSSL; here a key is an
 * opaque value, and a certificate records the fields the Ruby code sets.
 */
module X509 {
  import opened Wrappers

  /** The public half of a key pair (opaque key material). */
  datatype PublicKey = PublicKey(material: nat)

  /** An RSA key pair, as returned by `OpenSSL::PKey::RSA.new`; `publicKey` is `rsa.public_key`. */
  datatype RsaKey = RsaKey(publicKey: PublicKey, privateMaterial: nat)

  /** A distinguished name: its relative distinguished names as (attribute, value) pairs. */
  datatype Name = Name(entries: seq<(string, string)>)

  /** The `SSLCertName` option: the attribute/value pairs `OpenSSL::X509::Name.new` is given. */
  type NameSpec = seq<(string, string)>

  /** An extension as `ExtensionFactory#create_extension(oid, value)` makes it (never critical). */
  datatype Extension = Extension(oid: string, value: string, critical: bool)

  /** A message digest algorithm, named as OpenSSL names it. */
  datatype Digest = Digest(name: string)

  const Sha1: Digest := Digest("SHA1")

  /** A signature over the certificate, checkable with `verifyingKey`, computed with `digest`. */
  datatype Signature = Signature(verifyingKey: PublicKey, digest: Digest)

  /**
   * A certificate. `version` is the raw integer stored in the version field
   * (RFC 5280 section 4.1.2.1 encodes X.509 v3 as 2); times are seconds.
   */
  datatype Certificate = Certificate(
    version: int,
    serial: int,
    subject: Name,
    issuer: Name,
    notBefore: int,
    notAfter: int,
    publicKey: PublicKey,
    extensions: seq<Extension>,
    signature: Signature)

  /** The raw version value the self-signed certificate is given. */
  const GeneratedVersion := 3

  /** The raw version value that RFC 5280 section 4.1.2.1 uses for X.509 v3. */
  const V3Encoding := 2

  /** One year of 365 days, in seconds: the lifetime of a generated certificate. */
  const ValiditySeconds := 365 * 24 * 60 * 60

  const BasicConstraints := Extension("basicConstraints", "CA:FALSE", false)
  const SubjectKeyIdentifier := Extension("subjectKeyIdentifier", "hash", false)
  const ExtendedKeyUsage := Extension("extendedKeyUsage", "serverAuth", false)
  const AuthorityKeyIdentifier := Extension("authorityKeyIdentifier", "keyid:always,issuer:always", false)

  function NsComment(comment: string): Extension {
    Extension("nsComment", comment, false)
  }

  /** The object identifiers of a list of extensions, in order. */
  function Oids(exts: seq<Extension>): (oids: seq<string>)
    ensures |oids| == |exts|
    ensures forall i :: 0 <= i < |exts| ==> oids[i] == exts[i].oid
  {
    if exts == [] then [] else [exts[0].oid] + Oids(exts[1..])
  }

  /** A certificate that names itself as issuer and is signed by the key it certifies. */
  ghost predicate IsSelfSigned(cert: Certificate) {
    cert.subject == cert.issuer && cert.signature.verifyingKey == cert.publicKey
  }

  /** An end-entity certificate for TLS servers: not a CA, and usable for server authentication. */
  ghost predicate IsServerLeaf(cert: Certificate) {
    BasicConstraints in cert.extensions && ExtendedKeyUsage in cert.extensions
  }

  /**
   * The extensions of a generated certificate: the three set as a list, then
   * the authority key identifier added once the factory's issuer certificate
   * is the certificate itself, then a Netscape comment when one is configured.
   */
  function GeneratedExtensions(comment: Option<string>): (exts: seq<Extension>)
    ensures |exts| == if comment.Some? then 5 else 4
    ensures exts[..4] == [BasicConstraints, SubjectKeyIdentifier, ExtendedKeyUsage, AuthorityKeyIdentifier]
    ensures Oids(exts)[..4] == ["basicConstraints", "subjectKeyIdentifier", "extendedKeyUsage", "authorityKeyIdentifier"]
    ensures exts[0].value == "CA:FALSE" && exts[1].value == "hash" && exts[2].value == "serverAuth"
    ensures exts[3].value == "keyid:always,issuer:always"
    ensures comment.Some? ==> exts[4] == NsComment(comment.value)
    ensures "nsComment" in Oids(exts) <==> comment.Some?
    ensures forall e :: e in exts ==> !e.critical
  {
    [BasicConstraints, SubjectKeyIdentifier, ExtendedKeyUsage]
    + [AuthorityKeyIdentifier]
    + (if comment.Some? then [NsComment(comment.value)] else [])
  }

  /**
   * The self-signed certificate built for `key` and the parsed name. The
   * clock is read twice: `notBefore` is the first reading and `secondReading`
   * the second, to which one year is added.
   */
  function SelfSignedCertificate(key: RsaKey, name: Name, comment: Option<string>,
                                 notBefore: int, secondReading: int): (cert: Certificate)
    ensures cert.version == GeneratedVersion && cert.version != V3Encoding
    ensures cert.serial == 0
    ensures cert.subject == name && IsSelfSigned(cert)
    ensures cert.publicKey == key.publicKey
    ensures cert.signature.digest == Sha1
    ensures cert.notBefore == notBefore && cert.notAfter == secondReading + ValiditySeconds
    ensures notBefore <= secondReading ==> cert.notAfter - cert.notBefore >= ValiditySeconds
    ensures cert.extensions == GeneratedExtensions(comment) && IsServerLeaf(cert)
  {
    var exts := GeneratedExtensions(comment);
    assert exts[0] == BasicConstraints && exts[2] == ExtendedKeyUsage;
    Certificate(
      version := GeneratedVersion,
      serial := 0,
      subject := name,
      issuer := name,
      notBefore := notBefore,
      notAfter := secondReading + ValiditySeconds,
      publicKey := key.publicKey,
      extensions := exts,
      signature := Signature(key.publicKey, Sha1))
  }
}
