/**
  The schema-validated document envelope every x509 entity builds on.

  The JSON value model and the JSON-Schema subset the package's schemas use
  ("type" string/integer/object, "required", "additionalProperties": false,
  "properties"), and the load contract of the document package: an absent
  input loads the default template, a given one must conform to the schema.
*/
module Documents {
  import opened Base

  /** A parsed JSON value. */
  datatype Json =
    | JNull
    | JBool(b: bool)
    | JInt(i: int)
    | JString(s: string)
    | JArray(items: seq<Json>)
    | JObject(fields: map<string, Json>)

  /** The JSON-Schema subset used by the CA and Certificate schemas. */
  datatype Schema =
    | StringType
    | IntegerType
    | ObjectType(required: set<string>, closed: bool, properties: map<string, Schema>)

  /** JSON-Schema validation of `j` against `s`. */
  predicate Conforms(j: Json, s: Schema)
    decreases s
  {
    match s
    case StringType => j.JString?
    case IntegerType => j.JInt?
    case ObjectType(required, closed, properties) =>
      && j.JObject?
      && (forall k :: k in required ==> k in j.fields)
      && (closed ==> forall k :: k in j.fields ==> k in properties)
      && (forall k :: k in properties && k in j.fields ==> Conforms(j.fields[k], properties[k]))
  }

  /** An object schema that requires every property it declares and admits no other key. */
  predicate IsClosedRecord(s: Schema) {
    s.ObjectType? && s.closed && s.required == s.properties.Keys
  }

  /** A value conforming to a closed record schema has exactly the declared keys, each conforming. */
  lemma ClosedRecordKeys(j: Json, s: Schema)
    requires IsClosedRecord(s) && Conforms(j, s)
    ensures j.JObject? && j.fields.Keys == s.properties.Keys
    ensures forall k :: k in s.properties ==> Conforms(j.fields[k], s.properties[k])
  {
  }

  /** What a caller hands to a document's Load: nothing, text that does not parse, or a parsed value. */
  datatype Input = Absent | Malformed | Given(value: Json)

  /**
    The document load contract: an absent input yields the default template, a
    malformed one a parse error, and a given value is accepted exactly when it
    conforms to the schema.
  */
  function LoadDocument(input: Input, default: Json, schema: Schema): (r: Result<Json, Error>)
    ensures r.Success? ==> Conforms(r.value, schema)
    ensures r.Success? ==> r.value == (if input.Given? then input.value else default)
    ensures input.Malformed? ==> r == Failure(DocumentError(ParseError))
    ensures input.Given? ==> (r.Success? <==> Conforms(input.value, schema))
    ensures input.Absent? ==> (r.Success? <==> Conforms(default, schema))
    ensures !input.Malformed? && r.Failure? ==> r == Failure(DocumentError(ValidationError))
    ensures r.Failure? ==> r.error.DocumentError?
  {
    match input
    case Malformed => Failure(DocumentError(ParseError))
    case Absent => if Conforms(default, schema) then Success(default) else Failure(DocumentError(ValidationError))
    case Given(j) => if Conforms(j, schema) then Success(j) else Failure(DocumentError(ValidationError))
  }
}
