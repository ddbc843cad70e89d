/**
  The leaf Certificate document: its JSON shape and default template, its
  load/dump lifecycle, and `Generate`, which self-signs or signs with a parent
  Certificate's stored key.
*/
module Certificates {
  import opened Base
  import opened Documents
  import opened DistinguishedNames
  import opened Primitives

  datatype CertificateBody = CertificateBody(id: string, name: string, certificate: string, privateKey: string)

  /** `CertificateData`; `docType` is the JSON key "type". */
  datatype CertificateData = CertificateData(
    scope: string,
    version: int,
    docType: string,
    options: string,
    body: CertificateBody)

  /** The Go zero value of `CertificateData`, what `new(Certificate)` holds before a load. */
  const ZeroCertificateData := CertificateData("", 0, "", "", CertificateBody("", "", "", ""))

  /** The `CertificateDefault` template. */
  const CertificateDefault: Json := JObject(map[
    "scope" := JString("pki.io"),
    "version" := JInt(1),
    "type" := JString("certificate-document"),
    "options" := JString(""),
    "body" := JObject(map[
      "id" := JString(""),
      "name" := JString(""),
      "certificate" := JString(""),
      "private-key" := JString("")])])

  const CertificateBodySchema: Schema := ObjectType(
    {"id", "name", "certificate", "private-key"}, true,
    map["id" := StringType, "name" := StringType, "certificate" := StringType, "private-key" := StringType])

  /** The `CertificateSchema`: five required top-level keys, four required body keys, no others. */
  const CertificateSchema: Schema := ObjectType(
    {"scope", "version", "type", "options", "body"}, true,
    map["scope" := StringType, "version" := IntegerType, "type" := StringType, "options" := StringType,
        "body" := CertificateBodySchema])

  /** The typed body the default template decodes to. */
  const DefaultCertificateData := CertificateData("pki.io", 1, "certificate-document", "", CertificateBody("", "", "", ""))

  /** `ToJson` of a `CertificateData`: one key per struct field, named by its json tag. */
  function CertificateToJson(d: CertificateData): (j: Json)
    ensures Conforms(j, CertificateSchema)
  {
    JObject(map[
      "scope" := JString(d.scope),
      "version" := JInt(d.version),
      "type" := JString(d.docType),
      "options" := JString(d.options),
      "body" := JObject(map[
        "id" := JString(d.body.id),
        "name" := JString(d.body.name),
        "certificate" := JString(d.body.certificate),
        "private-key" := JString(d.body.privateKey)])])
  }

  /**
    Decoding a conforming document into a `CertificateData`. The schema is
    closed, so nothing is dropped: encoding the result gives back the document.
  */
  function CertificateFromJson(j: Json): (d: CertificateData)
    requires Conforms(j, CertificateSchema)
    ensures CertificateToJson(d) == j
  {
    ClosedRecordKeys(j, CertificateSchema);
    var b := j.fields["body"];
    ClosedRecordKeys(b, CertificateBodySchema);
    var d := CertificateData(
      j.fields["scope"].s, j.fields["version"].i, j.fields["type"].s, j.fields["options"].s,
      CertificateBody(b.fields["id"].s, b.fields["name"].s, b.fields["certificate"].s, b.fields["private-key"].s));
    assert CertificateToJson(d).fields["body"].fields == b.fields;
    assert CertificateToJson(d).fields == j.fields;
    d
  }

  /** Encoding then decoding a body gives it back. */
  lemma CertificateJsonRoundTrip(d: CertificateData)
    ensures CertificateFromJson(CertificateToJson(d)) == d
  {
    var j := CertificateToJson(d);
    var e := CertificateFromJson(j);
    assert CertificateToJson(e) == j;
  }

  /** `CertificateDefault` conforms to `CertificateSchema` and decodes to the default body. */
  lemma CertificateDefaultConforms()
    ensures Conforms(CertificateDefault, CertificateSchema)
    ensures CertificateFromJson(CertificateDefault) == DefaultCertificateData
  {
    assert CertificateToJson(DefaultCertificateData) == CertificateDefault;
    CertificateJsonRoundTrip(DefaultCertificateData);
  }

  /**
    What `Load` stores: the default body for an absent input, otherwise the
    given document when it conforms; a failure is a document error.
  */
  function LoadCertificate(input: Input): (r: Result<CertificateData, Error>)
    ensures r.Success? <==> input.Absent? || (input.Given? && Conforms(input.value, CertificateSchema))
    ensures r.Success? ==> CertificateToJson(r.value) == (if input.Given? then input.value else CertificateDefault)
    ensures input.Absent? ==> r == Success(DefaultCertificateData)
    ensures input.Malformed? ==> r == Failure(DocumentError(ParseError))
    ensures r.Failure? ==> r.error.DocumentError?
  {
    CertificateDefaultConforms();
    match LoadDocument(input, CertificateDefault, CertificateSchema)
    case Success(j) => Success(CertificateFromJson(j))
    case Failure(e) => Failure(e)
  }

  /** Dumping a body and loading the dump reproduces the body. */
  lemma CertificateDumpLoadRoundTrip(d: CertificateData)
    ensures LoadCertificate(Given(CertificateToJson(d))) == Success(d)
  {
    CertificateJsonRoundTrip(d);
  }

  /** The `parentCertificate interface{}` argument of `Generate`: nil, a `*Certificate`, or a value of another type. */
  datatype CertificateParent =
    | NoParent
    | ByCertificate(certificate: Certificate)
    | OtherParent(typeName: string)

  /** What `Generate` reads from its parent: nothing, a parent Certificate's body, or the other type's name. */
  datatype ParentMaterial =
    | SelfSigned
    | ParentBody(body: CertificateBody)
    | InvalidParent(typeName: string)

  function Material(parent: CertificateParent): ParentMaterial
    reads if parent.ByCertificate? then {parent.certificate} else {}
  {
    match parent
    case NoParent => SelfSigned
    case ByCertificate(c) => ParentBody(c.data.body)
    case OtherParent(t) => InvalidParent(t)
  }

  /** The fixed subject of `Generate`: country "Earth", organization "Mother Nature", no common name. */
  const GenerateSubject := Name("", ["Earth"], ["Mother Nature"], [], [], [], [], [])

  /** The fixed serial number of `Generate`. */
  const GenerateSerial := 1234

  /**
    The `x509.CreateCertificate` call `Generate` makes, or the error that stops
    it first. The template is never a CA, always carries the fixed subject and
    serial, and its subject key is the public half of the fresh key.
  */
  function GenerateSigning(parent: ParentMaterial, notBefore: Time, notAfter: Time, freshKey: PrivateKey, crypto: Crypto)
    : (r: Result<Signing, Error>)
    ensures r.Success? ==> !r.value.template.isCA && r.value.template.serial == GenerateSerial
    ensures r.Success? ==> r.value.template.subject == GenerateSubject && r.value.subjectKey == PublicHalf(freshKey)
    ensures r.Success? ==> r.value.template == Template(false, GenerateSerial, GenerateSubject, notBefore, notAfter)
    ensures r.Success? ==> r.value.issuer.Some? && r.value.signingKey.Some?
    ensures parent.SelfSigned? ==> r.Success? && r.value.issuer == Some(r.value.template) && r.value.signingKey == Some(freshKey)
    ensures parent.InvalidParent? ==> r == Failure(InvalidParentType(parent.typeName))
    ensures parent.ParentBody? ==>
      match crypto.decodeCertificate(parent.body.certificate)
      case None => r == Failure(ParentCertificateError)
      case Some(c) =>
        match crypto.decodePrivateKey(parent.body.privateKey)
        case None => r == Failure(ParentKeyError)
        case Some(k) => r.Success? && r.value.issuer == Some(c) && r.value.signingKey == Some(k)
  {
    var template := Template(false, GenerateSerial, GenerateSubject, notBefore, notAfter);
    match parent
    case SelfSigned => Success(Signing(template, Some(template), PublicHalf(freshKey), Some(freshKey)))
    case InvalidParent(t) => Failure(InvalidParentType(t))
    case ParentBody(b) =>
      match crypto.decodeCertificate(b.certificate)
      case None => Failure(ParentCertificateError)
      case Some(c) =>
        match crypto.decodePrivateKey(b.privateKey)
        case None => Failure(ParentKeyError)
        case Some(k) => Success(Signing(template, Some(c), PublicHalf(freshKey), Some(k)))
  }

  /**
    The body after `Generate` and the error it returns. A failure leaves the
    body exactly as it was; a success writes the issued certificate and the
    fresh key and nothing else.
  */
  function Generated(d: CertificateData, parent: ParentMaterial, notBefore: Time, notAfter: Time,
                     freshKey: PrivateKey, crypto: Crypto): (r: (CertificateData, Option<Error>))
    ensures r.1.Some? ==> r.0 == d
    ensures r.1.None? ==> r.0.body.privateKey == crypto.encodePrivateKey(freshKey)
    ensures r.1.None? ==> r.0.body.id == d.body.id && r.0.body.name == d.body.name
    ensures r.1.None? ==> r.0.scope == d.scope && r.0.version == d.version && r.0.docType == d.docType && r.0.options == d.options
    ensures r.1.None? <==>
      GenerateSigning(parent, notBefore, notAfter, freshKey, crypto).Success? &&
      (var s := GenerateSigning(parent, notBefore, notAfter, freshKey, crypto).value;
       crypto.createCertificate(s.template, s.issuer, s.subjectKey, s.signingKey).Some?)
    ensures r.1.None? ==>
      (var s := GenerateSigning(parent, notBefore, notAfter, freshKey, crypto).value;
       r.0.body.certificate == crypto.encodeCertificate(crypto.createCertificate(s.template, s.issuer, s.subjectKey, s.signingKey).value))
    ensures r.1.Some? ==>
      r.1.value == (match GenerateSigning(parent, notBefore, notAfter, freshKey, crypto)
                       case Failure(e) => e
                       case Success(_) => CreateCertificateError)
  {
    match GenerateSigning(parent, notBefore, notAfter, freshKey, crypto)
    case Failure(e) => (d, Some(e))
    case Success(s) =>
      match crypto.createCertificate(s.template, s.issuer, s.subjectKey, s.signingKey)
      case None => (d, Some(CreateCertificateError))
      case Some(der) =>
        (d.(body := d.body.(certificate := crypto.encodeCertificate(der), privateKey := crypto.encodePrivateKey(freshKey))), None)
  }

  /**
    A chain of two: once a self-signed `Generate` has succeeded on a body, a
    `Generate` with that Certificate as parent cannot fail on the parent's
    material, and it signs with the parent's fresh key.
  */
  lemma GenerateWithGeneratedParent(d: CertificateData, nb: Time, na: Time, rootKey: PrivateKey,
                                    child: CertificateData, nb2: Time, na2: Time, childKey: PrivateKey, crypto: Crypto)
    requires PemRoundTrips(crypto)
    requires Generated(d, SelfSigned, nb, na, rootKey, crypto).1.None?
    ensures var root := Generated(d, SelfSigned, nb, na, rootKey, crypto).0;
      var s := GenerateSigning(ParentBody(root.body), nb2, na2, childKey, crypto);
      s.Success? && s.value.signingKey == Some(rootKey)
  {
    var s := GenerateSigning(SelfSigned, nb, na, rootKey, crypto).value;
    var der := crypto.createCertificate(s.template, s.issuer, s.subjectKey, s.signingKey).value;
    var root := Generated(d, SelfSigned, nb, na, rootKey, crypto).0;
    assert root.body.certificate == crypto.encodeCertificate(der);
    assert crypto.decodeCertificate(crypto.encodeCertificate(der)).Some?;
    assert crypto.decodePrivateKey(crypto.encodePrivateKey(rootKey)) == Some(rootKey);
  }

  /** A Certificate document, whose body the operations update in place. */
  class Certificate {
    var data: CertificateData

    /** `new(Certificate)`: the zero body. */
    constructor ()
      ensures data == ZeroCertificateData
    {
      data := ZeroCertificateData;
    }

    /** `NewCertificate`: a new document loaded from `input`, or the load error. */
    static method NewCertificate(input: Input) returns (r: Result<Certificate, Error>)
      ensures r.Success? <==> LoadCertificate(input).Success?
      ensures r.Success? ==> fresh(r.value) && r.value.data == LoadCertificate(input).value
      ensures r.Failure? ==> r.error == LoadCertificate(input).error
    {
      var certificate := new Certificate();
      var err := certificate.Load(input);
      if err.Some? {
        return Failure(err.value);
      }
      return Success(certificate);
    }

    /** `Load`: the body is replaced only when the input loads; a failed load leaves it intact. */
    method Load(input: Input) returns (err: Option<Error>)
      modifies this
      ensures LoadCertificate(input).Success? ==> err == None && data == LoadCertificate(input).value
      ensures LoadCertificate(input).Failure? ==> err == Some(LoadCertificate(input).error) && data == old(data)
    {
      match LoadCertificate(input)
      case Failure(e) =>
        return Some(e);
      case Success(d) =>
        data := d;
        return None;
    }

    /** `Dump`: the rendered JSON text of the body, or "" when rendering fails. */
    function Dump(render: Json -> Option<string>): (text: string)
      reads this
      ensures render(CertificateToJson(data)).None? ==> text == ""
      ensures render(CertificateToJson(data)).Some? ==> text == render(CertificateToJson(data)).value
    {
      match render(CertificateToJson(data))
      case None => ""
      case Some(text) => text
    }

    /** `Certificate()`: the stored certificate, decoded; it fails while no certificate was generated. */
    function DecodedCertificate(crypto: Crypto): (r: Option<X509Cert>)
      reads this
      ensures PemRoundTrips(crypto) && data.body.certificate == "" ==> r == None
      ensures PemRoundTrips(crypto) ==>
        (exists t, i, p, k :: crypto.createCertificate(t, i, p, k).Some? &&
           data.body.certificate == crypto.encodeCertificate(crypto.createCertificate(t, i, p, k).value)) ==> r.Some?
    {
      crypto.decodeCertificate(data.body.certificate)
    }

    /** `PrivateKey()`: the stored private key, decoded; it fails while no key was generated. */
    function DecodedPrivateKey(crypto: Crypto): (r: Option<PrivateKey>)
      reads this
      ensures PemRoundTrips(crypto) && data.body.privateKey == "" ==> r == None
      ensures PemRoundTrips(crypto) ==> forall k :: data.body.privateKey == crypto.encodePrivateKey(k) ==> r == Some(k)
    {
      crypto.decodePrivateKey(data.body.privateKey)
    }

    /**
      `Generate(parentCertificate, notBefore, notAfter)`, with the key
      `crypto.GenerateRSAKey` returned passed in as `freshKey`.
    */
    method Generate(parent: CertificateParent, notBefore: Time, notAfter: Time, freshKey: PrivateKey, crypto: Crypto)
      returns (err: Option<Error>)
      modifies this
      ensures (data, err) == Generated(old(data), old(Material(parent)), notBefore, notAfter, freshKey, crypto)
    {
      var template := Template(false, GenerateSerial, GenerateSubject, notBefore, notAfter);
      var publicKey := PublicHalf(freshKey);
      var issuer: X509Cert;
      var signingKey: PrivateKey;
      match parent {
        case ByCertificate(p) =>
          var decoded := p.DecodedCertificate(crypto);
          if decoded.None? {
            return Some(ParentCertificateError);
          }
          var key := p.DecodedPrivateKey(crypto);
          if key.None? {
            return Some(ParentKeyError);
          }
          issuer, signingKey := decoded.value, key.value;
        case NoParent =>
          issuer, signingKey := template, freshKey;
        case OtherParent(t) =>
          return Some(InvalidParentType(t));
      }
      var der := crypto.createCertificate(template, Some(issuer), publicKey, Some(signingKey));
      if der.None? {
        return Some(CreateCertificateError);
      }
      data := data.(body := data.body.(certificate := crypto.encodeCertificate(der.value)));
      data := data.(body := data.body.(privateKey := crypto.encodePrivateKey(freshKey)));
      return None;
    }
  }

  /**
    `Dump` and `Load` are inverse: when the JSON text renderer and parser are
    inverse, loading a non-failed dump restores the body exactly.
  */
  lemma CertificateDumpThenLoad(doc: Certificate, render: Json -> Option<string>, parse: string -> Input)
    requires forall j :: render(j).Some? ==> parse(render(j).value) == Given(j)
    ensures render(CertificateToJson(doc.data)).Some? ==> LoadCertificate(parse(doc.Dump(render))) == Success(doc.data)
  {
    CertificateDumpLoadRoundTrip(doc.data);
  }
}
