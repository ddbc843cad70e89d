/**
  The cryptographic collaborators of the x509 package, as opaque values.

  RSA key generation, `x509.CreateCertificate` and PEM encoding/decoding are
  foreign code: a `Crypto` value bundles them as total functions, so every
  property proved here holds whatever they compute. The freshly generated key,
  the identifier generator and the clock are parameters of the operations.
*/
module Primitives {
  import opened Base
  import opened DistinguishedNames

  /** An instant; validity dates are opaque inputs. */
  type Time = int

  datatype KeyUsage = DigitalSignature | CertSign

  datatype ExtKeyUsage = ClientAuth | ServerAuth

  /** An RSA private key, known only by an opaque handle. */
  datatype PrivateKey = PrivateKey(handle: nat)

  /** An RSA public key. */
  datatype PublicKey = PublicKey(handle: nat)

  /** `&privateKey.PublicKey`: the public half of a key pair. */
  function PublicHalf(key: PrivateKey): PublicKey {
    PublicKey(key.handle)
  }

  /** The fields of an `x509.Certificate` the package sets when it builds a template. */
  datatype X509Cert = X509Cert(
    isCA: bool,
    basicConstraintsValid: bool,
    subjectKeyId: seq<int>,
    serial: int,
    subject: Name,
    notBefore: Time,
    notAfter: Time,
    extKeyUsage: seq<ExtKeyUsage>,
    keyUsage: set<KeyUsage>)

  /** DER bytes of an issued certificate. */
  datatype Der = Der(bytes: seq<int>)

  /** The foreign primitives; a decoder answers None where its Go counterpart returns an error. */
  datatype Crypto = Crypto(
    decodeCertificate: string -> Option<X509Cert>,
    decodePrivateKey: string -> Option<PrivateKey>,
    decodePublicKey: string -> Option<PublicKey>,
    createCertificate: (X509Cert, Option<X509Cert>, PublicKey, Option<PrivateKey>) -> Option<Der>,
    encodeCertificate: Der -> string,
    encodePrivateKey: PrivateKey -> string)

  /**
    The arguments of one `x509.CreateCertificate(rand, template, parent, pub, priv)`
    call; a None issuer or signing key is a nil pointer.
  */
  datatype Signing = Signing(
    template: X509Cert,
    issuer: Option<X509Cert>,
    subjectKey: PublicKey,
    signingKey: Option<PrivateKey>)

  /**
    The template every issuing path builds: basic constraints valid, subject key
    id {1, 2, 3}, extended usages client and server authentication, usages
    digital signature and certificate signing.
  */
  function Template(isCA: bool, serial: int, subject: Name, notBefore: Time, notAfter: Time): (r: X509Cert)
    ensures r.isCA == isCA && r.serial == serial && r.subject == subject
    ensures r.notBefore == notBefore && r.notAfter == notAfter
    ensures r.basicConstraintsValid && r.subjectKeyId == [1, 2, 3]
    ensures r.extKeyUsage == [ClientAuth, ServerAuth] && r.keyUsage == {DigitalSignature, CertSign}
  {
    X509Cert(isCA, true, [1, 2, 3], serial, subject, notBefore, notAfter,
      [ClientAuth, ServerAuth], {DigitalSignature, CertSign})
  }

  /**
    PEM behaves as an encoding: a stored private key decodes to the key that was
    encoded, a stored certificate that `createCertificate` issued decodes, and
    an empty field (material never generated) decodes to nothing.
  */
  ghost predicate PemRoundTrips(c: Crypto) {
    && (forall k :: c.decodePrivateKey(c.encodePrivateKey(k)) == Some(k))
    && (forall t, i, p, k :: c.createCertificate(t, i, p, k).Some? ==>
          c.decodeCertificate(c.encodeCertificate(c.createCertificate(t, i, p, k).value)).Some?)
    && c.decodeCertificate("") == None
    && c.decodePrivateKey("") == None
  }
}
