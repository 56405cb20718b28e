/** The request body of a media tag update and the rules declared on it.
    The datatype's constructor is the class constructor, which copies each
    argument into the field of the same name. */
module UpdateMediaTagDto {
  import opened Common

  datatype UpdateMediaTagDto = UpdateMediaTagDto(name: Field, prettyName: Field, image: Field, coreType: Field)

  /** `validateSync` on the body: name, prettyName and image are optional and
      carry no rule; coreType is skipped when undefined or null, and any
      other value, the empty string included, must be one of the
      enumeration's values. */
  function Validate(dto: UpdateMediaTagDto): (errors: seq<Violation>)
    ensures errors == [] <==> dto.coreType.None? || dto.coreType.value in CoreTypes
    ensures CoreTypeEnumMessage in Messages(errors, "coreType") <==> errors != []
    ensures Reported(errors) <= {"coreType"}
    ensures |errors| <= 1
  {
    if dto.coreType.None? || dto.coreType.value in CoreTypes then []
    else [ConstraintViolation("coreType", {CoreTypeEnumMessage})]
  }

  /** Only coreType decides the outcome. */
  lemma OnlyCoreTypeDecides(dto: UpdateMediaTagDto, name: Field, prettyName: Field, image: Field)
    ensures Validate(dto.(name := name, prettyName := prettyName, image := image)) == Validate(dto)
  {
  }
}
