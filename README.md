# pki.io x509 credential issuance, modelled in Dafny

This project models the credential-issuance core of the `x509` package of
pki.io: the CA document (`x509/ca.go`) and the leaf Certificate document
(`x509/certificate.go`). Each is a schema-validated JSON document with a
typed body. A CA can be generated as a self-signed root or as an
intermediate signed by a parent CA, inheriting that parent's distinguished-name
scope. A CA signs certificate signing requests (CSRs) into new Certificate
documents. A Certificate can also generate itself, self-signed or signed by a
parent Certificate.

Layout, one module per concern:

- `base.dfy` (`Base`): `Option`, `Result` and the package's error kinds.
- `documents.dfy` (`Documents`): JSON values, the JSON-Schema subset the two
  schemas use, and the document load contract (absent input loads the default
  template; a given document must conform to the schema).
- `dn_scope.dfy` (`DistinguishedNames`): the seven-attribute dn-scope, its
  inheritance from a parent, and the X.509 subject built from a name and a
  scope. The source writes the subject rule out twice, once in `GenerateSub`
  and once in `Sign`. Here it is one function, `Subject`, used by both.
- `serial.dfy` (`Serials`): `NewSerial` (remove the hyphens, scan as
  hexadecimal) and the decimal rendering of a serial stored as a CA's `id`.
- `primitives.dfy` (`Primitives`): the crypto collaborators as a record of
  opaque functions (`Crypto`), the certificate template, and the arguments of
  one `x509.CreateCertificate` call (`Signing`).
- `certificate.dfy` (`Certificates`): `x509/certificate.go`.
- `ca.dfy` (`CertificateAuthorities`): `x509/ca.go`.

Documents whose fields the source updates in place are classes. `CA` and
`Certificate` each hold their `data` body, and `Load`, `GenerateSub`,
`GenerateRoot` and `Generate` assign it. Each of these methods is proved
equal to a pure function of the old body: `LoadCA`, `GeneratedSub`,
`LoadCertificate` and `Generated`. The source's promises are proved about
those functions, in their contracts and in lemmas.

Go's `interface{}` parent arguments with a runtime type switch become sum
types. `CAParent` is `NoParent | ByCA | OtherParent(typeName)` and
`CertificateParent` is `NoParent | ByCertificate | OtherParent(typeName)`.
A `*CA` handed to `Certificate.Generate` is an `OtherParent`, as it is in
the source's type switch.

Three behaviours of the code are easy to misread; the model follows the code:

- `Sign` discards the decode errors of the CA's own certificate and private
  key (x509/ca.go:370 and x509/ca.go:375). It passes nil on to
  `CreateCertificate` and does not report a signing-key error.
- `GenerateSub` is not all-or-nothing. The dn-scope override happens before
  any step that can fail and is not rolled back. Only `id`, `certificate`
  and `private-key` are left untouched on failure.
- Serial monotonicity across calls depends on the identifier generator,
  which is not part of this model. What is proved is that distinct
  lower-case standard identifiers give distinct serials and distinct ids.
  Identifiers that differ only in letter case give the same serial, as Go's
  hexadecimal scan values upper- and lower-case digits alike.

## Model

| member | source | states |
|---|---|---|
| `Documents.LoadDocument` | x509/ca.go:184-192 | An absent input is accepted exactly when the default conforms, and then yields the default. A malformed one is a parse error. A given document is accepted exactly when it conforms, and yields itself. Every other failure is a validation error. |
| `DistinguishedNames.Inherit` | x509/ca.go:211-235 | For each of the seven attributes, the result is the parent's value when the parent sets it, even over a non-empty child value. Otherwise it is the child's value. |
| `DistinguishedNames.InheritLaws` | x509/ca.go:211-235 | Inheriting from an empty scope changes nothing. Inheriting twice from one parent equals inheriting once. A parent that sets every attribute is copied whole. |
| `DistinguishedNames.Subject` | x509/ca.go:237-261 | The common name is the given name. Attribute `a` is the one-element list of the scope's value exactly when the scope sets it, and is absent exactly when the scope leaves it empty. |
| `DistinguishedNames.SubjectRoundTrip` | x509/ca.go:237-261 | The scope is recovered from the subject, and no subject attribute holds an empty string. |
| `DistinguishedNames.SubjectInjective` | x509/ca.go:330-352 | Equal subjects come only from equal common names over equal scopes. |
| `Serials.RemoveHyphens` | x509/ca.go:163 | The result has no hyphen, keeps every other character, and is the input itself when the input has no hyphen. |
| `Serials.RemoveHyphensAppend` | x509/ca.go:163 | Removing hyphens distributes over concatenation. |
| `Serials.RemoveHyphensOfGroups` | x509/ca.go:162-163 | Removing the hyphens from hyphen-joined groups runs the groups together. |
| `Serials.HexPrefixLength` | x509/ca.go:165 | The scanner consumes exactly the maximal leading run of hexadecimal digits. |
| `Serials.ScanHex` | x509/ca.go:165 | The scan fails exactly when, after an optional sign, no hexadecimal digit follows, or the run of digits is followed by a multi-byte character (`big.Int` reads byte by byte and rejects it). For a text without multi-byte characters, it fails exactly when no digit follows the sign. A negative result needs a leading minus sign. A text made only of hexadecimal digits scans to its own value. |
| `Serials.HexValue` | x509/ca.go:164-165 | The value of n hexadecimal digits is below 16^n. |
| `Serials.NewSerial` | x509/ca.go:161-171 | A serial is never negative, because every hyphen is removed before scanning. It succeeds exactly when the scan does, and fails with the serial error otherwise. |
| `Serials.SerialOfHexIdentifier` | x509/ca.go:161-171 | For an identifier of hex digits and hyphens, the serial is the integer whose base-16 digits are the identifier with every hyphen removed. |
| `Serials.SerialFailure` | x509/ca.go:165-167 | Derivation fails exactly when the cleaned identifier, after an optional plus sign, does not start with a hexadecimal digit, or its run of digits is followed by a multi-byte character. |
| `Serials.SerialOfStandardIdentifier` | x509/ca.go:161-171 | An 8-4-4-4-12 hexadecimal identifier gives the serial written by its 32 digits, which is below 2^128. |
| `Serials.HexValueInjective` | x509/ca.go:163-165 | Lower-case hex texts of equal length with equal values are equal. |
| `Serials.Decimal` | x509/ca.go:308 | The `%d` rendering is non-empty. It starts with a minus sign exactly for a negative number, followed by digits with no leading zero. Otherwise it is all digits. |
| `Serials.DecimalDigits` | x509/ca.go:308 | The rendering is a non-empty string of decimal digits with no leading zero. |
| `Serials.DecimalDigitsRoundTrip` | x509/ca.go:308 | The decimal digits of n read back as n. |
| `Serials.DecimalRoundTrip` | x509/ca.go:308 | The `%d` rendering of a serial reads back as the serial, so distinct serials give distinct ids. |
| `Serials.DistinctIdentifiersGiveDistinctIds` | x509/ca.go:161-171 | Two distinct standard lower-case identifiers give distinct serials, and so distinct CA ids. |
| `Primitives.Template` | x509/ca.go:268-279 | Every issuing path uses one fixed policy: basic constraints valid, subject key id {1, 2, 3}, extended usages client and server authentication, usages digital signature and certificate signing. Only the CA flag, serial, subject and validity window vary, and each is carried unchanged. The same literal appears at x509/ca.go:358-369 and x509/certificate.go:135-146. |
| `Certificates.CertificateToJson` | x509/certificate.go:28-90 | Every body, encoded under its json tags, conforms to `CertificateSchema`. |
| `Certificates.CertificateFromJson` | x509/certificate.go:79-90 | Decoding a conforming document loses nothing: re-encoding gives back the document. |
| `Certificates.CertificateJsonRoundTrip` | x509/certificate.go:79-90 | Encoding then decoding a body gives it back. |
| `Certificates.CertificateDefaultConforms` | x509/certificate.go:15-77 | `CertificateDefault` conforms to `CertificateSchema` and decodes to scope "pki.io", version 1, type "certificate-document", and empty options and body fields. |
| `Certificates.LoadCertificate` | x509/certificate.go:108-116 | Loading succeeds exactly for an absent or conforming input, and the loaded body encodes back to that input. An absent input gives the default body. A failure is a document error. |
| `Certificates.CertificateDumpLoadRoundTrip` | x509/certificate.go:108-124 | Loading a dumped body reproduces it. |
| `Certificates.CertificateDumpThenLoad` | x509/certificate.go:108-124 | With an inverse text renderer and parser, loading a non-failed dump restores the body exactly. |
| `Certificates.GenerateSigning` | x509/certificate.go:130-170 | The template is the fixed-policy template with the CA flag off, serial 1234, the given validity window, and the subject country ["Earth"], organization ["Mother Nature"], no common name. The subject key is the fresh key's public half. No parent means self-signed with the fresh key. A Certificate parent lends its decoded certificate and key, and fails when either does not decode. Any other type fails with "Invalid parent type". |
| `Certificates.Generated` | x509/certificate.go:126-180 | A failure leaves the whole body unchanged and returns the dispatch error, or the signing error when the signing call fails. A success stores the PEM of the issued certificate and the fresh key, and nothing else changes. It succeeds exactly when dispatch and signing succeed. |
| `Certificates.GenerateWithGeneratedParent` | x509/certificate.go:154-177 | After a successful self-signed `Generate`, generating under that Certificate cannot fail on the parent's material and signs with the parent's fresh key. |
| `Certificates.Certificate.constructor` | x509/certificate.go:98 | A new document holds the zero body. |
| `Certificates.Certificate.NewCertificate` | x509/certificate.go:97-106 | Succeeds exactly when the load does, returning a fresh document holding the loaded body. `NewCertificate(nil)` yields the default body. |
| `Certificates.Certificate.Load` | x509/certificate.go:108-116 | Replaces the body only on success. A failed load returns the error and leaves the previous body intact. |
| `Certificates.Certificate.Dump` | x509/certificate.go:118-124 | Returns the rendered JSON of the body, or "" when rendering fails. |
| `Certificates.Certificate.DecodedCertificate` | x509/certificate.go:182-184 | Decoding fails on a field that was never generated and succeeds on the PEM of any certificate the signing call issued. |
| `Certificates.Certificate.DecodedPrivateKey` | x509/certificate.go:186-192 | Decoding fails on a field that was never generated and returns the very key that was encoded. |
| `Certificates.Certificate.Generate` | x509/certificate.go:126-180 | The new body and the error are exactly those of `Generated` on the old body and the parent's body at entry. |
| `CertificateAuthorities.DNScopeToJson` | x509/ca.go:144-152 | An encoded dn-scope conforms to its schema. |
| `CertificateAuthorities.DNScopeFromJson` | x509/ca.go:144-152 | Decoding a conforming dn-scope loses nothing. |
| `CertificateAuthorities.CABodyToJson` | x509/ca.go:139-153 | An encoded CA body conforms to its schema. |
| `CertificateAuthorities.CABodyShape` | x509/ca.go:63-129 | A conforming CA body has exactly the keys id, name, certificate, private-key and dn-scope, with string fields and a conforming dn-scope. |
| `CertificateAuthorities.CABodyFromJson` | x509/ca.go:139-153 | Decoding a conforming CA body loses nothing. |
| `CertificateAuthorities.CAToJson` | x509/ca.go:134-154 | Every CA body, encoded under its json tags, conforms to `CASchema`. |
| `CertificateAuthorities.CAShape` | x509/ca.go:39-132 | A conforming CA document has exactly the keys scope, version, type, options and body. Version is an integer, the other three are strings, and the body conforms. |
| `CertificateAuthorities.CAFromJson` | x509/ca.go:134-154 | Decoding a conforming CA document loses nothing: re-encoding gives back the document. |
| `CertificateAuthorities.CAJsonRoundTrip` | x509/ca.go:134-154 | Encoding then decoding a CA body gives it back. |
| `CertificateAuthorities.CADefaultConforms` | x509/ca.go:17-132 | `CADefault` conforms to `CASchema` and decodes to scope "pki.io", version 1, type "ca-document", and empty fields and dn-scope. |
| `CertificateAuthorities.LoadCA` | x509/ca.go:184-192 | Loading succeeds exactly for an absent or conforming input, and the loaded body encodes back to that input. An absent input gives the default body. A failure is a document error. |
| `CertificateAuthorities.CADumpLoadRoundTrip` | x509/ca.go:184-200 | Loading a dumped CA body reproduces it. |
| `CertificateAuthorities.CADumpThenLoad` | x509/ca.go:184-200 | With an inverse text renderer and parser, loading a non-failed dump restores the CA body exactly. |
| `CertificateAuthorities.Inherited` | x509/ca.go:209-235 | A `*CA` parent overrides each dn-scope attribute it sets. Any other parent leaves the body as it is. Nothing outside the dn-scope changes. |
| `CertificateAuthorities.SubSigning` | x509/ca.go:237-302 | A serial failure comes first. The template is the fixed-policy template with the CA flag on, the derived serial, the subject from the CA's name and scope, the given validity window, and the fresh key's public half. Nil means self-signed: the issuer is the template and the fresh key signs. A `*CA` lends its decoded certificate and key, and fails when either does not decode. Any other type fails with "Invalid parent type". |
| `CertificateAuthorities.GeneratedSub` | x509/ca.go:206-314 | The dn-scope is inherited whatever happens next. Any failure leaves id, certificate and private key unchanged and returns the serial or dispatch error, or the signing error when the signing call fails. A success sets id to the decimal serial and stores the PEM of the issued certificate and the fresh key. Name, scope, version, type and options never change. It succeeds exactly when serial, dispatch and signing succeed. |
| `CertificateAuthorities.RootIsSelfSigned` | x509/ca.go:202-304 | `GenerateRoot` leaves the dn-scope exactly as it was. Its template is its own issuer, the fresh key signs it, and its subject is the CA's own name over its own scope. |
| `CertificateAuthorities.InvalidParentChangesNothing` | x509/ca.go:263-302 | A parent of another type leaves the body exactly as it was. The error is "Invalid parent type", or the serial error when derivation fails first. |
| `CertificateAuthorities.SubUnderGeneratedRoot` | x509/ca.go:286-310 | After a successful `GenerateRoot`, a sub-CA under it cannot fail on the parent's material. The sub-CA is signed with the root's fresh key and takes every attribute the root's scope sets. |
| `CertificateAuthorities.SignSigning` | x509/ca.go:328-377 | Only a serial failure or an undecodable CSR public key is reported. The template is the fixed-policy template with the CA flag off, the derived serial and the given validity window. Its subject is the CSR's name over the CA's own scope. The CSR's key is the subject key. The CA's certificate and key are passed on as decoded, nil when they do not decode. |
| `CertificateAuthorities.Signed` | x509/ca.go:328-390 | On success the new Certificate body has id and name from the CSR and the issued certificate stored. Its private key is empty, and scope, version, type and options are those of `CertificateDefault`. A failure returns the error of `SignSigning`, or the signing error when the signing call fails. |
| `CertificateAuthorities.SignWithUngeneratedCA` | x509/ca.go:370-377 | A CA that was never generated still reaches the signing call, with a nil issuer and a nil signing key. |
| `CertificateAuthorities.SignWithGeneratedRoot` | x509/ca.go:328-377 | A CA generated as a root signs leaves with its own fresh key. The leaf subject carries the CA's scope under the CSR's name. |
| `CertificateAuthorities.CA.constructor` | x509/ca.go:174 | A new CA holds the zero body. |
| `CertificateAuthorities.CA.NewCA` | x509/ca.go:173-182 | Succeeds exactly when the load does, returning a fresh CA holding the loaded body. Otherwise it returns the load error. |
| `CertificateAuthorities.CA.Load` | x509/ca.go:184-192 | Replaces the body only on success. A failed load returns the error and leaves the previous body intact. |
| `CertificateAuthorities.CA.Dump` | x509/ca.go:194-200 | Returns the rendered JSON of the body, or "" when rendering fails. |
| `CertificateAuthorities.CA.DecodedCertificate` | x509/ca.go:316-318 | Decoding fails on a field that was never generated and succeeds on the PEM of any certificate the signing call issued. |
| `CertificateAuthorities.CA.DecodedPrivateKey` | x509/ca.go:320-326 | Decoding fails on a field that was never generated and returns the very key that was encoded. |
| `CertificateAuthorities.CA.InheritFrom` | x509/ca.go:211-235 | The seven conditional assignments leave the dn-scope equal to `Inherit` of the old scope and the parent's scope at entry, also when the parent is the CA itself. Nothing else changes. |
| `CertificateAuthorities.CA.GenerateRoot` | x509/ca.go:202-204 | Equal to `GenerateSub` with no parent. |
| `CertificateAuthorities.CA.GenerateSub` | x509/ca.go:206-314 | The new body and the error are exactly those of `GeneratedSub` on the old body and the parent's body at entry. |
| `CertificateAuthorities.CA.Sign` | x509/ca.go:328-390 | Returns a fresh Certificate whose body is that of `Signed`, or that function's error. It has no modifies clause, so neither the CA nor any other existing object changes. |

## Left out

- RSA key generation, `x509.CreateCertificate` and PEM encoding and decoding are foreign code. They are the opaque functions of a `Crypto` value. Signatures, issuer/subject matching at the DER level, and key/certificate matching are not modelled.
- The key `crypto.GenerateRSAKey` returns, the identifier `uuid.TimeOrderedUUID` returns, and the validity window of `Sign` are parameters. The window comes from `time.Now()` and `AddDate(5, 5, 5)`. The generator's time ordering, and so serial monotonicity across calls, is not modelled.
- JSON text is opaque. A load input is absent, malformed, or an already parsed value. `Dump` renders through an opaque renderer, and its swallow-to-"" branch is that renderer's failure.
- The validation engine of the document package is not part of this model. `Conforms` models the JSON-Schema subset the two schemas use: string, integer, and closed objects with required keys. JSON numbers with a fraction, and integers outside Go's `int` range, are not modelled. Neither is any special treatment of an empty-string input.
- Leading white space before the digits of the scanned identifier is not modelled. After hyphen removal, an identifier from the generator has none.
- A nil `*CA` or `*Certificate` pointer passed as parent dereferences nil in the source. This is not modelled: `ByCA` and `ByCertificate` always hold an object.
- What `CreateCertificate` does with the nil issuer or nil key that `Sign` may pass is left to the opaque `createCertificate`.
- Error messages are modelled by kind only. `%T` type names are given as `OtherParent`'s `typeName`.
- The CSR document is not part of this model. `Sign` reads only its id, name and stored public key (`CSRData`).
- config/config_test.go tests a file-backed configuration store and is not part of this model.
