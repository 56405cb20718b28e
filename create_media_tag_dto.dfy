/** The request body of a media tag creation and the rules declared on it.
    The datatype's constructor is the class constructor, which copies each
    argument into the field of the same name. */
module CreateMediaTagDto {
  import opened Common

  datatype CreateMediaTagDto = CreateMediaTagDto(name: Field, prettyName: Field, image: Field, coreType: Field)

  const NameRequiredMessage := "Name is required"

  /** The rules `name` breaks: it must not be empty. */
  function NameRules(name: Field): set<string> {
    if Truthy(name) then {} else {NameRequiredMessage}
  }

  /** The rules `coreType` breaks: it must not be empty, and it must be one of
      the enumeration's values. Both rules are checked, so an absent or empty
      value breaks both. */
  function CoreTypeRules(coreType: Field): set<string> {
    (if Truthy(coreType) then {} else {CoreTypeRequiredMessage})
    + (if InEnum(coreType, CoreTypes) then {} else {CoreTypeEnumMessage})
  }

  /** `validateSync` on the body. prettyName and image are optional and carry
      no rule. */
  function Validate(dto: CreateMediaTagDto): (errors: seq<Violation>)
    ensures errors == [] <==> Truthy(dto.name) && InEnum(dto.coreType, CoreTypes)
    ensures NameRequiredMessage in Messages(errors, "name") <==> !Truthy(dto.name)
    ensures CoreTypeRequiredMessage in Messages(errors, "coreType") <==> !Truthy(dto.coreType)
    ensures CoreTypeEnumMessage in Messages(errors, "coreType") <==> !InEnum(dto.coreType, CoreTypes)
    ensures Reported(errors) <= {"name", "coreType"}
    ensures |errors| <= 2
  {
    var nameErrors := ErrorFor("name", NameRules(dto.name));
    var coreTypeErrors := ErrorFor("coreType", CoreTypeRules(dto.coreType));
    MessagesOfConcat(nameErrors, coreTypeErrors, "name");
    MessagesOfConcat(nameErrors, coreTypeErrors, "coreType");
    assert "" !in CoreTypes;
    nameErrors + coreTypeErrors
  }

  /** The optional fields never decide the outcome. */
  lemma OptionalFieldsIgnored(dto: CreateMediaTagDto, prettyName: Field, image: Field)
    ensures Validate(dto.(prettyName := prettyName, image := image)) == Validate(dto)
  {
  }

  /** A value from the enumeration is never empty, so the "required" message
      about coreType never comes alone. */
  lemma RequiredImpliesEnum(dto: CreateMediaTagDto)
    ensures CoreTypeRequiredMessage in Messages(Validate(dto), "coreType") ==>
      CoreTypeEnumMessage in Messages(Validate(dto), "coreType")
  {
  }
}
