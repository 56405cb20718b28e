/** The request body of a minister creation and the rules declared on it.
    The datatype's constructor is the class constructor, which copies each
    argument into the field of the same name. */
module CreateMinisterDto {
  import opened Common

  datatype CreateMinisterDto = CreateMinisterDto(
    name: Field, prettyName: Field, image: Field, ministry: Field, coreType: Field, office: Field)

  const NameRequiredMessage := "Name is required"
  const OfficeEnumMessage := "Office should only contain apostle, prophet, evangelist, pastor, teacher"

  /** The rules `name` breaks: it must not be empty. */
  function NameRules(name: Field): set<string> {
    if Truthy(name) then {} else {NameRequiredMessage}
  }

  /** The rules `coreType` breaks: it must not be empty, and it must be one of
      the enumeration's values; both are checked. */
  function CoreTypeRules(coreType: Field): set<string> {
    (if Truthy(coreType) then {} else {CoreTypeRequiredMessage})
    + (if InEnum(coreType, CoreTypes) then {} else {CoreTypeEnumMessage})
  }

  /** The rules `office` breaks: an undefined or null office is skipped; any
      other value, the empty string included, must be one of the enumeration's values. */
  function OfficeRules(office: Field): set<string> {
    if office.None? || office.value in Offices then {} else {OfficeEnumMessage}
  }

  /** `validateSync` on the body: one error per property that broke a rule,
      in declaration order. prettyName, image and ministry carry no rule. */
  function Validate(dto: CreateMinisterDto): (errors: seq<Violation>)
    ensures errors == [] <==>
      Truthy(dto.name) && InEnum(dto.coreType, CoreTypes) && (dto.office.None? || dto.office.value in Offices)
    ensures NameRequiredMessage in Messages(errors, "name") <==> !Truthy(dto.name)
    ensures CoreTypeRequiredMessage in Messages(errors, "coreType") <==> !Truthy(dto.coreType)
    ensures CoreTypeEnumMessage in Messages(errors, "coreType") <==> !InEnum(dto.coreType, CoreTypes)
    ensures OfficeEnumMessage in Messages(errors, "office") <==> dto.office.Some? && dto.office.value !in Offices
    ensures Reported(errors) <= {"name", "coreType", "office"}
    ensures |errors| <= 3
  {
    var nameErrors := ErrorFor("name", NameRules(dto.name));
    var coreTypeErrors := ErrorFor("coreType", CoreTypeRules(dto.coreType));
    var officeErrors := ErrorFor("office", OfficeRules(dto.office));
    MessagesOfConcat(nameErrors, coreTypeErrors, "name");
    MessagesOfConcat(nameErrors, coreTypeErrors, "coreType");
    MessagesOfConcat(nameErrors, coreTypeErrors, "office");
    MessagesOfConcat(nameErrors + coreTypeErrors, officeErrors, "name");
    MessagesOfConcat(nameErrors + coreTypeErrors, officeErrors, "coreType");
    MessagesOfConcat(nameErrors + coreTypeErrors, officeErrors, "office");
    assert "" !in CoreTypes;
    nameErrors + coreTypeErrors + officeErrors
  }

  /** The unconstrained fields never decide the outcome. */
  lemma UnconstrainedFieldsIgnored(dto: CreateMinisterDto, prettyName: Field, image: Field, ministry: Field)
    ensures Validate(dto.(prettyName := prettyName, image := image, ministry := ministry)) == Validate(dto)
  {
  }
}
