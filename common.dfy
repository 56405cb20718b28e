/** Vocabulary shared by the services: the response status, request and
    document field values, JavaScript truthiness, and the error entries that
    validation returns. */
module Common {

  datatype Option<T> = None | Some(value: T)

  /** The status carried by every response envelope. */
  datatype Status = Success | Error | NotFound | FailedValidation | Unauthorized

  /** Document identifiers (Mongo object ids), compared by value. */
  type Id = nat

  /** The caller's identity as the authorization gate hands it to a service. */
  type UserId = string
  type TenantId = string

  /** An opaque point in time, as `Date.now()` returns it. */
  type Timestamp = int

  /** A SHA-256 digest in the form the services store it. */
  type Digest = string

  /** A string-valued request or document field; None is undefined or null. */
  type Field = Option<string>

  /** JavaScript truthiness of a string-valued field: defined and non-empty.
      For strings this is also exactly class-validator's IsNotEmpty rule,
      which rejects "", null and undefined. */
  predicate Truthy(f: Field) {
    f.Some? && f.value != ""
  }

  /** The partial-update idiom `supplied ? (target = supplied) : ""`. */
  function Overwrite(current: Field, supplied: Field): Field {
    if Truthy(supplied) then supplied else current
  }

  /** One entry of the `errors` array that a validation returns.
      ConstraintViolation is a class-validator ValidationError (the property
      and the messages of the rules it broke); the other three are the
      service-level errors for a missing, duplicate or unknown value. */
  datatype Violation =
    | ConstraintViolation(property: string, constraints: set<string>)
    | RequiredError(field: string, value: Field)
    | DuplicateError(field: string, value: Field)
    | InvalidDataError(field: string, value: Field)

  /** class-validator's IsEnum rule: the value is one of the enumeration's
      values; undefined and null are not. */
  predicate InEnum(f: Field, values: set<string>) {
    f.Some? && f.value in values
  }

  /** The messages of the rules a property broke, gathered over a list of
      validation errors. */
  function Messages(errors: seq<Violation>, property: string): set<string> {
    if errors == [] then {}
    else
      (if errors[0].ConstraintViolation? && errors[0].property == property then errors[0].constraints else {})
      + Messages(errors[1..], property)
  }

  /** The messages of a concatenation are those of its two parts. */
  lemma {:induction false} MessagesOfConcat(a: seq<Violation>, b: seq<Violation>, property: string)
    ensures Messages(a + b, property) == Messages(a, property) + Messages(b, property)
  {
    if a == [] {
      assert a + b == b;
    } else {
      assert (a + b)[1..] == a[1..] + b;
      MessagesOfConcat(a[1..], b, property);
    }
  }

  /** At most one error per property, holding every rule that property broke. */
  function ErrorFor(property: string, broken: set<string>): (errors: seq<Violation>)
    ensures forall p :: Messages(errors, p) == if p == property then broken else {}
    ensures errors == [] <==> broken == {}
  {
    if broken == {} then [] else
      var errors := [ConstraintViolation(property, broken)];
      assert errors[1..] == [];
      errors
  }

  /** The properties a list of validation errors reports on. */
  function Reported(errors: seq<Violation>): set<string> {
    set e | e in errors && e.ConstraintViolation? :: e.property
  }

  /** `countDocuments({nameHash: digest})`: the number of documents, in every
      tenant, whose stored digest is `digest`. */
  function CountWithDigest<R>(records: map<Id, R>, digestOf: R -> Digest, digest: Digest): (found: nat)
    ensures found > 0 <==> exists id :: id in records && digestOf(records[id]) == digest
  {
    var matching := set id | id in records && digestOf(records[id]) == digest;
    if matching == {} then
      assert forall id :: id in records && digestOf(records[id]) == digest ==> id in matching;
      0
    else
      var id :| id in matching;
      |matching|
  }

  /** The values of the `coreType` enumeration, as its validation message lists them. */
  const CoreTypes: set<string> := {"music", "sermon", "music-sermon"}

  /** The values of the `office` enumeration, as its validation message lists them. */
  const Offices: set<string> := {"apostle", "prophet", "evangelist", "pastor", "teacher"}

  const CoreTypeRequiredMessage := "Core Type is required"
  const CoreTypeEnumMessage := "Core Type should only contain music, sermon or music-sermon"
}
