/** Small failure-carrying wrappers and the error taxonomy shared by the x509 package. */
module Base {

  /** A Go pointer or error that may be nil. */
  datatype Option<+T> = None | Some(value: T)

  /** A Go `(value, error)` pair: exactly one of the two is meaningful. */
  datatype Result<+T, +E> = Success(value: T) | Failure(error: E)

  /** Why a document body could not be loaded. */
  datatype DocumentFailure =
    | ParseError        // the input is not well-formed JSON
    | ValidationError   // well-formed, but it does not conform to the schema

  /** The errors the x509 package returns; each constructor names the message prefix of its source. */
  datatype Error =
    | DocumentError(failure: DocumentFailure)   // "Could not load CA JSON" / "Could not load Certificate JSON"
    | SerialError                               // "Could not create serial"
    | ParentCertificateError                    // "Could not get certificate"
    | ParentKeyError                            // "Could not get private key"
    | InvalidParentType(typeName: string)       // "Invalid parent type: %T"
    | CreateCertificateError                    // "Could not create certificate"
    | CSRPublicKeyError                         // "Could not get public key from CSR"
}
