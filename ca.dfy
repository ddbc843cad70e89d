/**
  The CA document: its JSON shape and default template, its load/dump
  lifecycle, root and intermediate generation (with dn-scope inheritance from
  a parent CA), and `Sign`, which issues a leaf Certificate document for a CSR.
*/
module CertificateAuthorities {
  import opened Base
  import opened Documents
  import opened DistinguishedNames
  import opened Serials
  import opened Primitives
  import Certificates

  datatype CABody = CABody(id: string, name: string, certificate: string, privateKey: string, dnScope: DNScope)

  /** `CAData`; `docType` is the JSON key "type". */
  datatype CAData = CAData(scope: string, version: int, docType: string, options: string, body: CABody)

  /** The Go zero value of `CAData`, what `new(CA)` holds before a load. */
  const ZeroCAData := CAData("", 0, "", "", CABody("", "", "", "", EmptyScope))

  /** The `CADefault` template. */
  const CADefault: Json := JObject(map[
    "scope" := JString("pki.io"),
    "version" := JInt(1),
    "type" := JString("ca-document"),
    "options" := JString(""),
    "body" := JObject(map[
      "id" := JString(""),
      "name" := JString(""),
      "certificate" := JString(""),
      "private-key" := JString(""),
      "dn-scope" := JObject(map[
        "country" := JString(""),
        "organization" := JString(""),
        "organizational-unit" := JString(""),
        "locality" := JString(""),
        "province" := JString(""),
        "street-address" := JString(""),
        "postal-code" := JString("")])])])

  const DNScopeSchema: Schema := ObjectType(
    {"country", "organization", "organizational-unit", "locality", "province", "street-address", "postal-code"}, true,
    map["country" := StringType, "organization" := StringType, "organizational-unit" := StringType,
        "locality" := StringType, "province" := StringType, "street-address" := StringType,
        "postal-code" := StringType])

  const CABodySchema: Schema := ObjectType(
    {"id", "name", "certificate", "private-key", "dn-scope"}, true,
    map["id" := StringType, "name" := StringType, "certificate" := StringType, "private-key" := StringType,
        "dn-scope" := DNScopeSchema])

  /** The `CASchema`: five required top-level keys, five body keys, seven dn-scope keys, no others. */
  const CASchema: Schema := ObjectType(
    {"scope", "version", "type", "options", "body"}, true,
    map["scope" := StringType, "version" := IntegerType, "type" := StringType, "options" := StringType,
        "body" := CABodySchema])

  /** The typed body the default template decodes to. */
  const DefaultCAData := CAData("pki.io", 1, "ca-document", "", CABody("", "", "", "", EmptyScope))

  function DNScopeToJson(s: DNScope): (j: Json)
    ensures Conforms(j, DNScopeSchema)
  {
    JObject(map[
      "country" := JString(s.country),
      "organization" := JString(s.organization),
      "organizational-unit" := JString(s.organizationalUnit),
      "locality" := JString(s.locality),
      "province" := JString(s.province),
      "street-address" := JString(s.streetAddress),
      "postal-code" := JString(s.postalCode)])
  }

  function DNScopeFromJson(j: Json): (s: DNScope)
    requires Conforms(j, DNScopeSchema)
    ensures DNScopeToJson(s) == j
  {
    ClosedRecordKeys(j, DNScopeSchema);
    var f := j.fields;
    var s := DNScope(f["country"].s, f["organization"].s, f["organizational-unit"].s, f["locality"].s,
      f["province"].s, f["street-address"].s, f["postal-code"].s);
    assert DNScopeToJson(s).fields == f;
    s
  }

  function CABodyToJson(b: CABody): (j: Json)
    ensures Conforms(j, CABodySchema)
  {
    JObject(map[
      "id" := JString(b.id),
      "name" := JString(b.name),
      "certificate" := JString(b.certificate),
      "private-key" := JString(b.privateKey),
      "dn-scope" := DNScopeToJson(b.dnScope)])
  }

  /** The keys and field types a conforming CA body has. */
  lemma CABodyShape(j: Json)
    requires Conforms(j, CABodySchema)
    ensures j.JObject? && j.fields.Keys == {"id", "name", "certificate", "private-key", "dn-scope"}
    ensures j.fields["id"].JString? && j.fields["name"].JString?
    ensures j.fields["certificate"].JString? && j.fields["private-key"].JString?
    ensures Conforms(j.fields["dn-scope"], DNScopeSchema)
  {
    ClosedRecordKeys(j, CABodySchema);
  }

  function CABodyFromJson(j: Json): (b: CABody)
    requires Conforms(j, CABodySchema)
    ensures CABodyToJson(b) == j
  {
    CABodyShape(j);
    var f := j.fields;
    var b := CABody(f["id"].s, f["name"].s, f["certificate"].s, f["private-key"].s, DNScopeFromJson(f["dn-scope"]));
    assert CABodyToJson(b).fields == f;
    b
  }

  /** `ToJson` of a `CAData`: one key per struct field, named by its json tag. */
  function CAToJson(d: CAData): (j: Json)
    ensures Conforms(j, CASchema)
  {
    JObject(map[
      "scope" := JString(d.scope),
      "version" := JInt(d.version),
      "type" := JString(d.docType),
      "options" := JString(d.options),
      "body" := CABodyToJson(d.body)])
  }

  /** The keys and field types a conforming CA document has. */
  lemma CAShape(j: Json)
    requires Conforms(j, CASchema)
    ensures j.JObject? && j.fields.Keys == {"scope", "version", "type", "options", "body"}
    ensures j.fields["scope"].JString? && j.fields["version"].JInt?
    ensures j.fields["type"].JString? && j.fields["options"].JString?
    ensures Conforms(j.fields["body"], CABodySchema)
  {
    ClosedRecordKeys(j, CASchema);
  }

  /**
    Decoding a conforming document into a `CAData`. The schema is closed at
    every level, so nothing is dropped: encoding the result gives back the document.
  */
  function CAFromJson(j: Json): (d: CAData)
    requires Conforms(j, CASchema)
    ensures CAToJson(d) == j
  {
    CAShape(j);
    var f := j.fields;
    var d := CAData(f["scope"].s, f["version"].i, f["type"].s, f["options"].s, CABodyFromJson(f["body"]));
    assert CAToJson(d).fields == f;
    d
  }

  /** Encoding then decoding a CA body gives it back. */
  lemma CAJsonRoundTrip(d: CAData)
    ensures CAFromJson(CAToJson(d)) == d
  {
    var j := CAToJson(d);
    assert CAToJson(CAFromJson(j)) == j;
    assert DNScopeFromJson(DNScopeToJson(d.body.dnScope)) == d.body.dnScope by {
      var s := DNScopeFromJson(DNScopeToJson(d.body.dnScope));
      assert DNScopeToJson(s) == DNScopeToJson(d.body.dnScope);
    }
    assert CABodyFromJson(CABodyToJson(d.body)) == d.body by {
      var b := CABodyFromJson(CABodyToJson(d.body));
      assert CABodyToJson(b) == CABodyToJson(d.body);
    }
  }

  /** `CADefault` conforms to `CASchema` and decodes to the default body. */
  lemma CADefaultConforms()
    ensures Conforms(CADefault, CASchema)
    ensures CAFromJson(CADefault) == DefaultCAData
  {
    assert CAToJson(DefaultCAData) == CADefault;
    CAJsonRoundTrip(DefaultCAData);
  }

  /**
    What `Load` stores: the default body for an absent input, otherwise the
    given document when it conforms; a failure is a document error.
  */
  function LoadCA(input: Input): (r: Result<CAData, Error>)
    ensures r.Success? <==> input.Absent? || (input.Given? && Conforms(input.value, CASchema))
    ensures r.Success? ==> CAToJson(r.value) == (if input.Given? then input.value else CADefault)
    ensures input.Absent? ==> r == Success(DefaultCAData)
    ensures input.Malformed? ==> r == Failure(DocumentError(ParseError))
    ensures r.Failure? ==> r.error.DocumentError?
  {
    CADefaultConforms();
    match LoadDocument(input, CADefault, CASchema)
    case Success(j) => Success(CAFromJson(j))
    case Failure(e) => Failure(e)
  }

  /** Dumping a CA body and loading the dump reproduces the body. */
  lemma CADumpLoadRoundTrip(d: CAData)
    ensures LoadCA(Given(CAToJson(d))) == Success(d)
  {
    CAJsonRoundTrip(d);
  }

  /** The fields `Sign` reads from a CSR document (the CSR type itself is not part of this model). */
  datatype CSRData = CSRData(id: string, name: string, publicKey: string)

  /** The `parentCA interface{}` argument of `GenerateSub`: nil, a `*CA`, or a value of another type. */
  datatype CAParent =
    | NoParent
    | ByCA(ca: CA)
    | OtherParent(typeName: string)

  /** What `GenerateSub` reads from its parent: nothing, the parent CA's body, or the other type's name. */
  datatype ParentMaterial =
    | SelfSigned
    | ParentData(data: CAData)
    | InvalidParent(typeName: string)

  function Material(parent: CAParent): ParentMaterial
    reads if parent.ByCA? then {parent.ca} else {}
  {
    match parent
    case NoParent => SelfSigned
    case ByCA(p) => ParentData(p.data)
    case OtherParent(t) => InvalidParent(t)
  }

  /**
    The first step of `GenerateSub`: a `*CA` parent overrides the child's
    dn-scope attribute by attribute (see `Inherit`); any other parent leaves
    the body as it is. Nothing but the dn-scope changes.
  */
  function Inherited(d: CAData, parent: ParentMaterial): (r: CAData)
    ensures r.scope == d.scope && r.version == d.version && r.docType == d.docType && r.options == d.options
    ensures r.body.id == d.body.id && r.body.name == d.body.name
    ensures r.body.certificate == d.body.certificate && r.body.privateKey == d.body.privateKey
    ensures parent.ParentData? ==> forall a: Attribute ::
      r.body.dnScope.Get(a) == (if parent.data.body.dnScope.Get(a) != "" then parent.data.body.dnScope.Get(a) else d.body.dnScope.Get(a))
    ensures !parent.ParentData? ==> r == d
  {
    match parent
    case ParentData(p) => d.(body := d.body.(dnScope := Inherit(d.body.dnScope, p.body.dnScope)))
    case _ => d
  }

  /**
    The `x509.CreateCertificate` call `GenerateSub` makes on the body `d`
    (after inheritance), or the error that stops it first: a serial failure,
    then the parent dispatch. The template is a CA, its subject is built from
    the CA's name and dn-scope, and its subject key is the public half of the
    fresh key.
  */
  function SubSigning(d: CAData, parent: ParentMaterial, uuid: string, notBefore: Time, notAfter: Time,
                      freshKey: PrivateKey, crypto: Crypto): (r: Result<Signing, Error>)
    ensures NewSerial(uuid).Failure? ==> r == Failure(SerialError)
    ensures r.Success? ==> NewSerial(uuid).Success? && r.value.template.serial == NewSerial(uuid).value
    ensures r.Success? ==> r.value.template.isCA && r.value.subjectKey == PublicHalf(freshKey)
    ensures r.Success? ==> r.value.template.subject == Subject(d.body.name, d.body.dnScope)
    ensures r.Success? ==> r.value.template == Template(true, NewSerial(uuid).value, Subject(d.body.name, d.body.dnScope), notBefore, notAfter)
    ensures NewSerial(uuid).Success? && parent.SelfSigned? ==>
      r.Success? && r.value.issuer == Some(r.value.template) && r.value.signingKey == Some(freshKey)
    ensures NewSerial(uuid).Success? && parent.InvalidParent? ==> r == Failure(InvalidParentType(parent.typeName))
    ensures NewSerial(uuid).Success? && parent.ParentData? ==>
      match crypto.decodeCertificate(parent.data.body.certificate)
      case None => r == Failure(ParentCertificateError)
      case Some(c) =>
        match crypto.decodePrivateKey(parent.data.body.privateKey)
        case None => r == Failure(ParentKeyError)
        case Some(k) => r.Success? && r.value.issuer == Some(c) && r.value.signingKey == Some(k)
  {
    match NewSerial(uuid)
    case Failure(e) => Failure(e)
    case Success(serial) =>
      var template := Template(true, serial, Subject(d.body.name, d.body.dnScope), notBefore, notAfter);
      match parent
      case SelfSigned => Success(Signing(template, Some(template), PublicHalf(freshKey), Some(freshKey)))
      case InvalidParent(t) => Failure(InvalidParentType(t))
      case ParentData(p) =>
        match crypto.decodeCertificate(p.body.certificate)
        case None => Failure(ParentCertificateError)
        case Some(c) =>
          match crypto.decodePrivateKey(p.body.privateKey)
          case None => Failure(ParentKeyError)
          case Some(k) => Success(Signing(template, Some(c), PublicHalf(freshKey), Some(k)))
  }

  /**
    The body after `GenerateSub` and the error it returns. The dn-scope is
    inherited whatever happens next, and is not rolled back on failure; any
    failure leaves id, certificate and private key as they were. A success
    stores the decimal serial as id, the issued certificate and the fresh key.
  */
  function GeneratedSub(d: CAData, parent: ParentMaterial, uuid: string, notBefore: Time, notAfter: Time,
                        freshKey: PrivateKey, crypto: Crypto): (r: (CAData, Option<Error>))
    ensures r.1.Some? ==> r.0 == Inherited(d, parent)
    ensures r.1.Some? ==> r.0.body.id == d.body.id && r.0.body.certificate == d.body.certificate && r.0.body.privateKey == d.body.privateKey
    ensures r.0.body.dnScope == Inherited(d, parent).body.dnScope
    ensures r.0.body.name == d.body.name
    ensures r.0.scope == d.scope && r.0.version == d.version && r.0.docType == d.docType && r.0.options == d.options
    ensures r.1.None? ==> NewSerial(uuid).Success? && r.0.body.id == Decimal(NewSerial(uuid).value)
    ensures r.1.None? ==> r.0.body.privateKey == crypto.encodePrivateKey(freshKey)
    ensures r.1.None? <==>
      SubSigning(Inherited(d, parent), parent, uuid, notBefore, notAfter, freshKey, crypto).Success? &&
      (var s := SubSigning(Inherited(d, parent), parent, uuid, notBefore, notAfter, freshKey, crypto).value;
       crypto.createCertificate(s.template, s.issuer, s.subjectKey, s.signingKey).Some?)
    ensures r.1.None? ==>
      (var s := SubSigning(Inherited(d, parent), parent, uuid, notBefore, notAfter, freshKey, crypto).value;
       r.0.body.certificate == crypto.encodeCertificate(crypto.createCertificate(s.template, s.issuer, s.subjectKey, s.signingKey).value))
    ensures r.1.Some? ==>
      r.1.value == (match SubSigning(Inherited(d, parent), parent, uuid, notBefore, notAfter, freshKey, crypto)
                       case Failure(e) => e
                       case Success(_) => CreateCertificateError)
  {
    var e := Inherited(d, parent);
    match SubSigning(e, parent, uuid, notBefore, notAfter, freshKey, crypto)
    case Failure(err) => (e, Some(err))
    case Success(s) =>
      match crypto.createCertificate(s.template, s.issuer, s.subjectKey, s.signingKey)
      case None => (e, Some(CreateCertificateError))
      case Some(der) =>
        (e.(body := e.body.(id := Decimal(s.template.serial), certificate := crypto.encodeCertificate(der),
                            privateKey := crypto.encodePrivateKey(freshKey))), None)
  }

  /**
    `GenerateRoot` is self-signed: the dn-scope is left exactly as it was, the
    template is its own issuer, the fresh key signs it, and its subject is the
    CA's own name and scope.
  */
  lemma RootIsSelfSigned(d: CAData, uuid: string, notBefore: Time, notAfter: Time, freshKey: PrivateKey, crypto: Crypto)
    requires NewSerial(uuid).Success?
    ensures GeneratedSub(d, SelfSigned, uuid, notBefore, notAfter, freshKey, crypto).0.body.dnScope == d.body.dnScope
    ensures var s := SubSigning(d, SelfSigned, uuid, notBefore, notAfter, freshKey, crypto);
      s.Success? && s.value.issuer == Some(s.value.template) && s.value.signingKey == Some(freshKey)
      && s.value.template.subject == Subject(d.body.name, d.body.dnScope)
      && s.value.template.subject.commonName == d.body.name
  {
  }

  /**
    A parent of another type changes nothing: the body stays exactly as it was
    and the error is the serial failure or "Invalid parent type".
  */
  lemma InvalidParentChangesNothing(d: CAData, t: string, uuid: string, notBefore: Time, notAfter: Time,
                                    freshKey: PrivateKey, crypto: Crypto)
    ensures var r := GeneratedSub(d, InvalidParent(t), uuid, notBefore, notAfter, freshKey, crypto);
      r.0 == d && r.1 == Some(if NewSerial(uuid).Success? then InvalidParentType(t) else SerialError)
  {
  }

  /**
    A chain of two: once `GenerateRoot` has succeeded on `root`, generating a
    sub-CA under it cannot fail on the parent's material; the sub-CA is signed
    with the root's fresh key and takes every dn-scope attribute the root sets.
  */
  lemma SubUnderGeneratedRoot(root: CAData, uuid: string, nb: Time, na: Time, rootKey: PrivateKey,
                              child: CAData, uuid2: string, nb2: Time, na2: Time, childKey: PrivateKey, crypto: Crypto)
    requires PemRoundTrips(crypto)
    requires GeneratedSub(root, SelfSigned, uuid, nb, na, rootKey, crypto).1.None?
    requires NewSerial(uuid2).Success?
    ensures var issuer := ParentData(GeneratedSub(root, SelfSigned, uuid, nb, na, rootKey, crypto).0);
      var s := SubSigning(Inherited(child, issuer), issuer, uuid2, nb2, na2, childKey, crypto);
      && s.Success? && s.value.signingKey == Some(rootKey)
      && Inherited(child, issuer).body.dnScope == Inherit(child.body.dnScope, root.body.dnScope)
  {
    var s := SubSigning(root, SelfSigned, uuid, nb, na, rootKey, crypto).value;
    var der := crypto.createCertificate(s.template, s.issuer, s.subjectKey, s.signingKey).value;
    var generated := GeneratedSub(root, SelfSigned, uuid, nb, na, rootKey, crypto).0;
    assert generated.body.certificate == crypto.encodeCertificate(der);
    assert crypto.decodeCertificate(crypto.encodeCertificate(der)).Some?;
    assert crypto.decodePrivateKey(crypto.encodePrivateKey(rootKey)) == Some(rootKey);
  }

  /**
    The `x509.CreateCertificate` call `Sign` makes, or the error that stops it
    first. The subject is the CSR's name over the CA's own dn-scope (no
    inheritance), the template is not a CA, and the subject key is the CSR's
    public key. The CA's certificate and key are decoded with their errors
    discarded: an undecodable one is passed on as nil, and only a serial or
    CSR public-key failure is reported.
  */
  function SignSigning(ca: CAData, csr: CSRData, uuid: string, notBefore: Time, notAfter: Time, crypto: Crypto)
    : (r: Result<Signing, Error>)
    ensures r.Success? <==> NewSerial(uuid).Success? && crypto.decodePublicKey(csr.publicKey).Some?
    ensures NewSerial(uuid).Failure? ==> r == Failure(SerialError)
    ensures NewSerial(uuid).Success? && crypto.decodePublicKey(csr.publicKey).None? ==> r == Failure(CSRPublicKeyError)
    ensures r.Success? ==> !r.value.template.isCA && r.value.template.serial == NewSerial(uuid).value
    ensures r.Success? ==> r.value.template.subject == Subject(csr.name, ca.body.dnScope)
    ensures r.Success? ==> r.value.template == Template(false, NewSerial(uuid).value, Subject(csr.name, ca.body.dnScope), notBefore, notAfter)
    ensures r.Success? ==> r.value.subjectKey == crypto.decodePublicKey(csr.publicKey).value
    ensures r.Success? ==> r.value.issuer == crypto.decodeCertificate(ca.body.certificate)
    ensures r.Success? ==> r.value.signingKey == crypto.decodePrivateKey(ca.body.privateKey)
  {
    match NewSerial(uuid)
    case Failure(e) => Failure(e)
    case Success(serial) =>
      var template := Template(false, serial, Subject(csr.name, ca.body.dnScope), notBefore, notAfter);
      var parent := crypto.decodeCertificate(ca.body.certificate);
      match crypto.decodePublicKey(csr.publicKey)
      case None => Failure(CSRPublicKeyError)
      case Some(publicKey) =>
        var signingKey := crypto.decodePrivateKey(ca.body.privateKey);
        Success(Signing(template, parent, publicKey, signingKey))
  }

  /**
    The Certificate document `Sign` returns: the default body with id and name
    copied from the CSR and the issued certificate stored; its private key
    stays empty, because the CA never holds the requester's key.
  */
  function Signed(ca: CAData, csr: CSRData, uuid: string, notBefore: Time, notAfter: Time, crypto: Crypto)
    : (r: Result<Certificates.CertificateData, Error>)
    ensures r.Success? ==> r.value.body.id == csr.id && r.value.body.name == csr.name && r.value.body.privateKey == ""
    ensures r.Success? ==> r.value.scope == "pki.io" && r.value.version == 1
    ensures r.Success? ==> r.value.docType == "certificate-document" && r.value.options == ""
    ensures r.Success? <==>
      SignSigning(ca, csr, uuid, notBefore, notAfter, crypto).Success? &&
      (var s := SignSigning(ca, csr, uuid, notBefore, notAfter, crypto).value;
       crypto.createCertificate(s.template, s.issuer, s.subjectKey, s.signingKey).Some?)
    ensures r.Success? ==>
      (var s := SignSigning(ca, csr, uuid, notBefore, notAfter, crypto).value;
       r.value.body.certificate == crypto.encodeCertificate(crypto.createCertificate(s.template, s.issuer, s.subjectKey, s.signingKey).value))
    ensures r.Failure? ==>
      r.error == (match SignSigning(ca, csr, uuid, notBefore, notAfter, crypto)
                       case Failure(e) => e
                       case Success(_) => CreateCertificateError)
  {
    match SignSigning(ca, csr, uuid, notBefore, notAfter, crypto)
    case Failure(e) => Failure(e)
    case Success(s) =>
      match crypto.createCertificate(s.template, s.issuer, s.subjectKey, s.signingKey)
      case None => Failure(CreateCertificateError)
      case Some(der) =>
        var d := Certificates.DefaultCertificateData;
        Success(d.(body := d.body.(id := csr.id, name := csr.name, certificate := crypto.encodeCertificate(der))))
  }

  /**
    A CA whose certificate and key were never generated still gets as far as
    the signing call: it passes a nil issuer and a nil signing key and reports
    no error of its own.
  */
  lemma SignWithUngeneratedCA(csr: CSRData, uuid: string, notBefore: Time, notAfter: Time, crypto: Crypto)
    requires PemRoundTrips(crypto)
    requires NewSerial(uuid).Success? && crypto.decodePublicKey(csr.publicKey).Some?
    ensures var s := SignSigning(DefaultCAData, csr, uuid, notBefore, notAfter, crypto);
      s.Success? && s.value.issuer == None && s.value.signingKey == None
  {
  }

  /**
    A CA generated as a root signs leaves with its own fresh key, and the leaf's
    subject carries the CA's dn-scope under the CSR's name.
  */
  lemma SignWithGeneratedRoot(root: CAData, uuid: string, nb: Time, na: Time, rootKey: PrivateKey,
                              csr: CSRData, uuid2: string, nb2: Time, na2: Time, crypto: Crypto)
    requires PemRoundTrips(crypto)
    requires GeneratedSub(root, SelfSigned, uuid, nb, na, rootKey, crypto).1.None?
    requires NewSerial(uuid2).Success? && crypto.decodePublicKey(csr.publicKey).Some?
    ensures var ca := GeneratedSub(root, SelfSigned, uuid, nb, na, rootKey, crypto).0;
      var s := SignSigning(ca, csr, uuid2, nb2, na2, crypto);
      && s.Success? && s.value.signingKey == Some(rootKey) && s.value.issuer.Some?
      && s.value.template.subject == Subject(csr.name, root.body.dnScope)
  {
    var s := SubSigning(root, SelfSigned, uuid, nb, na, rootKey, crypto).value;
    var der := crypto.createCertificate(s.template, s.issuer, s.subjectKey, s.signingKey).value;
    var ca := GeneratedSub(root, SelfSigned, uuid, nb, na, rootKey, crypto).0;
    assert ca.body.certificate == crypto.encodeCertificate(der);
    assert crypto.decodeCertificate(crypto.encodeCertificate(der)).Some?;
    assert crypto.decodePrivateKey(crypto.encodePrivateKey(rootKey)) == Some(rootKey);
  }

  /** A CA document, whose body the operations update in place. */
  class CA {
    var data: CAData

    /** `new(CA)`: the zero body. */
    constructor ()
      ensures data == ZeroCAData
    {
      data := ZeroCAData;
    }

    /** `NewCA`: a new document loaded from `input`, or the load error. */
    static method NewCA(input: Input) returns (r: Result<CA, Error>)
      ensures r.Success? <==> LoadCA(input).Success?
      ensures r.Success? ==> fresh(r.value) && r.value.data == LoadCA(input).value
      ensures r.Failure? ==> r.error == LoadCA(input).error
    {
      var ca := new CA();
      var err := ca.Load(input);
      if err.Some? {
        return Failure(err.value);
      }
      return Success(ca);
    }

    /** `Load`: the body is replaced only when the input loads; a failed load leaves it intact. */
    method Load(input: Input) returns (err: Option<Error>)
      modifies this
      ensures LoadCA(input).Success? ==> err == None && data == LoadCA(input).value
      ensures LoadCA(input).Failure? ==> err == Some(LoadCA(input).error) && data == old(data)
    {
      match LoadCA(input)
      case Failure(e) =>
        return Some(e);
      case Success(d) =>
        data := d;
        return None;
    }

    /** `Dump`: the rendered JSON text of the body, or "" when rendering fails. */
    function Dump(render: Json -> Option<string>): (text: string)
      reads this
      ensures render(CAToJson(data)).None? ==> text == ""
      ensures render(CAToJson(data)).Some? ==> text == render(CAToJson(data)).value
    {
      match render(CAToJson(data))
      case None => ""
      case Some(text) => text
    }

    /** `Certificate()`: the stored certificate, decoded; it fails while no certificate was generated. */
    function DecodedCertificate(crypto: Crypto): (r: Option<X509Cert>)
      reads this
      ensures PemRoundTrips(crypto) && data.body.certificate == "" ==> r == None
      ensures PemRoundTrips(crypto) ==>
        (exists t, i, p, k :: crypto.createCertificate(t, i, p, k).Some? &&
           data.body.certificate == crypto.encodeCertificate(crypto.createCertificate(t, i, p, k).value)) ==> r.Some?
    {
      crypto.decodeCertificate(data.body.certificate)
    }

    /** `PrivateKey()`: the stored private key, decoded; it fails while no key was generated. */
    function DecodedPrivateKey(crypto: Crypto): (r: Option<PrivateKey>)
      reads this
      ensures PemRoundTrips(crypto) && data.body.privateKey == "" ==> r == None
      ensures PemRoundTrips(crypto) ==> forall k :: data.body.privateKey == crypto.encodePrivateKey(k) ==> r == Some(k)
    {
      crypto.decodePrivateKey(data.body.privateKey)
    }

    /**
      The dn-scope override of `GenerateSub` for a `*CA` parent `p`: the seven
      attributes, one after another, take the parent's value when it is set.
    */
    method InheritFrom(p: CA)
      modifies this
      ensures data == old(data).(body := old(data).body.(dnScope := Inherit(old(data).body.dnScope, old(p.data).body.dnScope)))
    {
      // One read of the parent's scope: when p is this CA, a write only copies the value just read,
      // so the per-attribute reads of the source see these same values.
      var parents := p.data.body.dnScope;
      ghost var own := data.body.dnScope;
      if parents.country != "" {
        data := data.(body := data.body.(dnScope := data.body.dnScope.(country := parents.country)));
      }
      if parents.organization != "" {
        data := data.(body := data.body.(dnScope := data.body.dnScope.(organization := parents.organization)));
      }
      if parents.organizationalUnit != "" {
        data := data.(body := data.body.(dnScope := data.body.dnScope.(organizationalUnit := parents.organizationalUnit)));
      }
      if parents.locality != "" {
        data := data.(body := data.body.(dnScope := data.body.dnScope.(locality := parents.locality)));
      }
      if parents.province != "" {
        data := data.(body := data.body.(dnScope := data.body.dnScope.(province := parents.province)));
      }
      if parents.streetAddress != "" {
        data := data.(body := data.body.(dnScope := data.body.dnScope.(streetAddress := parents.streetAddress)));
      }
      if parents.postalCode != "" {
        data := data.(body := data.body.(dnScope := data.body.dnScope.(postalCode := parents.postalCode)));
      }
      assert data.body.dnScope == Inherit(own, parents);
    }

    /** `GenerateRoot`: `GenerateSub` with a nil parent. */
    method GenerateRoot(uuid: string, notBefore: Time, notAfter: Time, freshKey: PrivateKey, crypto: Crypto)
      returns (err: Option<Error>)
      modifies this
      ensures (data, err) == GeneratedSub(old(data), SelfSigned, uuid, notBefore, notAfter, freshKey, crypto)
    {
      err := GenerateSub(NoParent, uuid, notBefore, notAfter, freshKey, crypto);
    }

    /**
      `GenerateSub(parentCA, notBefore, notAfter)`, with the identifier the
      generator returned passed in as `uuid` and the key
      `crypto.GenerateRSAKey` returned as `freshKey`.
    */
    method GenerateSub(parent: CAParent, uuid: string, notBefore: Time, notAfter: Time, freshKey: PrivateKey, crypto: Crypto)
      returns (err: Option<Error>)
      modifies this
      ensures (data, err) == GeneratedSub(old(data), old(Material(parent)), uuid, notBefore, notAfter, freshKey, crypto)
    {
      if parent.ByCA? {
        InheritFrom(parent.ca);
      }

      var subject := Subject(data.body.name, data.body.dnScope);
      var serial := NewSerial(uuid);
      if serial.Failure? {
        return Some(SerialError);
      }
      var template := Template(true, serial.value, subject, notBefore, notAfter);
      var publicKey := PublicHalf(freshKey);

      var issuer: X509Cert;
      var signingKey: PrivateKey;
      match parent {
        case ByCA(p) =>
          var decoded := p.DecodedCertificate(crypto);
          if decoded.None? {
            return Some(ParentCertificateError);
          }
          var key := p.DecodedPrivateKey(crypto);
          if key.None? {
            return Some(ParentKeyError);
          }
          issuer, signingKey := decoded.value, key.value;
        case NoParent =>
          issuer, signingKey := template, freshKey;
        case OtherParent(t) =>
          return Some(InvalidParentType(t));
      }

      var der := crypto.createCertificate(template, Some(issuer), publicKey, Some(signingKey));
      if der.None? {
        return Some(CreateCertificateError);
      }
      data := data.(body := data.body.(id := Decimal(template.serial)));
      data := data.(body := data.body.(certificate := crypto.encodeCertificate(der.value)));
      data := data.(body := data.body.(privateKey := crypto.encodePrivateKey(freshKey)));
      return None;
    }

    /**
      `Sign(csr)`, with the identifier the generator returned passed in as
      `uuid` and the validity window the clock gives (`time.Now()` and five
      years, five months and five days later) as `notBefore` and `notAfter`.
      It changes no existing object: the CA and the CSR are left as they are.
    */
    method Sign(csr: CSRData, uuid: string, notBefore: Time, notAfter: Time, crypto: Crypto)
      returns (r: Result<Certificates.Certificate, Error>)
      ensures r.Success? <==> Signed(data, csr, uuid, notBefore, notAfter, crypto).Success?
      ensures r.Success? ==> fresh(r.value) && r.value.data == Signed(data, csr, uuid, notBefore, notAfter, crypto).value
      ensures r.Failure? ==> r.error == Signed(data, csr, uuid, notBefore, notAfter, crypto).error
    {
      var subject := Subject(csr.name, data.body.dnScope);
      var serial := NewSerial(uuid);
      if serial.Failure? {
        return Failure(SerialError);
      }
      var template := Template(false, serial.value, subject, notBefore, notAfter);
      var parent := DecodedCertificate(crypto);
      var csrPublicKey := crypto.decodePublicKey(csr.publicKey);
      if csrPublicKey.None? {
        return Failure(CSRPublicKeyError);
      }
      var signingKey := DecodedPrivateKey(crypto);

      var der := crypto.createCertificate(template, parent, csrPublicKey.value, signingKey);
      if der.None? {
        return Failure(CreateCertificateError);
      }

      // NewCertificate(nil) loads the default template, which always conforms.
      var made := Certificates.Certificate.NewCertificate(Absent);
      var cert := made.value;
      cert.data := cert.data.(body := cert.data.body.(id := csr.id));
      cert.data := cert.data.(body := cert.data.body.(name := csr.name));
      cert.data := cert.data.(body := cert.data.body.(certificate := crypto.encodeCertificate(der.value)));
      return Success(cert);
    }
  }

  /**
    `Dump` and `Load` are inverse: when the JSON text renderer and parser are
    inverse, loading a non-failed dump restores the body exactly.
  */
  lemma CADumpThenLoad(doc: CA, render: Json -> Option<string>, parse: string -> Input)
    requires forall j :: render(j).Some? ==> parse(render(j).value) == Given(j)
    ensures render(CAToJson(doc.data)).Some? ==> LoadCA(parse(doc.Dump(render))) == Success(doc.data)
  {
    CADumpLoadRoundTrip(doc.data);
  }
}
