/** The media tag service: the validation of a new tag (the declared rules,
    then a unique name, compared by its digest), the creation of a tag and
    the partial update of a tag, which keeps the stored digest in step with
    the stored name. */
module MediaTagService {
  import opened Common
  import Create = CreateMediaTagDto
  import Update = UpdateMediaTagDto

  /** A media tag document; name and image are held under `secret`. */
  datatype MediaTag = MediaTag(
    tenantId: TenantId,
    userId: UserId,
    name: Field,
    image: Field,
    nameHash: Digest,
    prettyName: Field,
    coreType: Field,
    isActive: bool,
    lastUpdatedAt: Option<Timestamp>)

  /** The stored digest is the digest of the stored name. */
  predicate HashMatchesName(t: MediaTag, hash: Field -> Digest) {
    t.nameHash == hash(t.name)
  }

  /** The digest a tag is looked up by. */
  function NameHashOf(t: MediaTag): Digest {
    t.nameHash
  }

  /** What `validateNewMediaTagDetails` returns: the errors of the declared
      rules when there are any; otherwise a missing-name error, or a
      duplicate-name error when some tag already has the name's digest. */
  function NewMediaTagErrors(tags: map<Id, MediaTag>, hash: Field -> Digest, dtoErrors: seq<Violation>, name: Field)
    : (errors: seq<Violation>)
    ensures dtoErrors != [] ==> errors == dtoErrors
    ensures dtoErrors == [] ==>
      (errors == [] <==> Truthy(name) && forall id :: id in tags ==> tags[id].nameHash != hash(name))
    ensures dtoErrors == [] && !Truthy(name) ==> errors == [RequiredError("Name", name)]
    ensures dtoErrors == [] && Truthy(name) && errors != [] ==> errors == [DuplicateError("Name", name)]
  {
    if dtoErrors != [] then dtoErrors
    else if !Truthy(name) then [RequiredError("Name", name)]
    else if CountWithDigest(tags, NameHashOf, hash(name)) > 0 then [DuplicateError("Name", name)]
    else []
  }

  /** A creation never reports a missing name on its own: the declared rules
      already reject an empty name. */
  lemma CreateNeverReportsRequired(tags: map<Id, MediaTag>, hash: Field -> Digest, dto: Create.CreateMediaTagDto)
    ensures RequiredError("Name", dto.name) !in NewMediaTagErrors(tags, hash, Create.Validate(dto), dto.name)
  {
    var errors := Create.Validate(dto);
    if errors != [] {
      assert forall e :: e in errors ==> e.ConstraintViolation? by {
        forall e | e in errors ensures e.ConstraintViolation? {
          assert e.property in Reported(errors);
        }
      }
    }
  }

  /** The document `saveNewMediaTagData` builds. */
  function NewMediaTag(tenantId: TenantId, userId: UserId, dto: Create.CreateMediaTagDto, hash: Field -> Digest): (r: MediaTag)
    ensures HashMatchesName(r, hash)
    ensures r.tenantId == tenantId && r.userId == userId && !r.isActive && r.lastUpdatedAt.None?
    ensures r.name == dto.name && r.image == dto.image
    ensures r.prettyName == dto.prettyName && r.coreType == dto.coreType
  {
    MediaTag(tenantId, userId, dto.name, dto.image, hash(dto.name), dto.prettyName, dto.coreType, false, None)
  }

  /** The document after `updateMediaTagData` on a found tag: each field is
      overwritten only by a truthy value, and a new name brings its digest. */
  function UpdatedMediaTag(t: MediaTag, dto: Update.UpdateMediaTagDto, hash: Field -> Digest, now: Timestamp): (r: MediaTag)
    ensures HashMatchesName(t, hash) ==> HashMatchesName(r, hash)
    ensures Truthy(dto.name) ==> r.name == dto.name && r.nameHash == hash(dto.name)
    ensures !Truthy(dto.name) ==> r.name == t.name && r.nameHash == t.nameHash
    ensures r.prettyName == (if Truthy(dto.prettyName) then dto.prettyName else t.prettyName)
    ensures r.image == (if Truthy(dto.image) then dto.image else t.image)
    ensures r.coreType == (if Truthy(dto.coreType) then dto.coreType else t.coreType)
    ensures r.tenantId == t.tenantId && r.userId == t.userId && r.isActive == t.isActive
    ensures r.lastUpdatedAt == Some(now)
  {
    t.(name := Overwrite(t.name, dto.name),
       prettyName := Overwrite(t.prettyName, dto.prettyName),
       image := Overwrite(t.image, dto.image),
       nameHash := if Truthy(dto.name) then hash(dto.name) else t.nameHash,
       coreType := Overwrite(t.coreType, dto.coreType),
       lastUpdatedAt := Some(now))
  }

  /** Once a tag is stored, a creation with the same name is rejected as a duplicate. */
  lemma CreatedNameIsTaken(tags: map<Id, MediaTag>, hash: Field -> Digest, id: Id,
                           tenantId: TenantId, userId: UserId, dto: Create.CreateMediaTagDto)
    requires Truthy(dto.name)
    ensures var after := tags[id := NewMediaTag(tenantId, userId, dto, hash)];
      NewMediaTagErrors(after, hash, [], dto.name) == [DuplicateError("Name", dto.name)]
  {
    var after := tags[id := NewMediaTag(tenantId, userId, dto, hash)];
    assert after[id].nameHash == hash(dto.name);
  }

  class MediaTagStore {
    const hash: Field -> Digest
    var tags: map<Id, MediaTag>
    var nextId: Id

    /** Identifiers below the next fresh one, and every digest in step with its name. */
    ghost predicate Valid()
      reads this
    {
      (forall id :: id in tags ==> id < nextId)
      && (forall id :: id in tags ==> HashMatchesName(tags[id], hash))
    }

    constructor (hash: Field -> Digest)
      ensures Valid() && this.hash == hash && tags == map[]
    {
      this.hash := hash;
      tags := map[];
      nextId := 0;
    }

    /** `validateNewMediaTagDetails`: the declared rules first; only when
        they pass is the name checked, and the errors list grows by push. */
    method ValidateNewMediaTagDetails(dto: Create.CreateMediaTagDto) returns (errors: seq<Violation>)
      ensures errors == NewMediaTagErrors(tags, hash, Create.Validate(dto), dto.name)
    {
      errors := Create.Validate(dto);
      if errors != [] {
        return;
      }
      if !Truthy(dto.name) {
        errors := errors + [RequiredError("Name", dto.name)];
      } else {
        var found := CountWithDigest(tags, NameHashOf, hash(dto.name));
        if found > 0 {
          errors := errors + [DuplicateError("Name", dto.name)];
        }
      }
    }

    /** `createMediaTag`: FAILED_VALIDATION with nothing stored, or the new
        tag under a fresh id. */
    method CreateMediaTag(tenantId: TenantId, userId: UserId, dto: Create.CreateMediaTagDto)
      returns (status: Status)
      requires Valid()
      modifies this
      ensures Valid()
      ensures status == Success <==> NewMediaTagErrors(old(tags), hash, Create.Validate(dto), dto.name) == []
      ensures status != Success ==> status == FailedValidation && tags == old(tags)
      ensures status == Success ==>
        old(nextId) !in old(tags) && tags == old(tags)[old(nextId) := NewMediaTag(tenantId, userId, dto, hash)]
    {
      var errors := ValidateNewMediaTagDetails(dto);
      if errors != [] {
        return FailedValidation;
      }
      tags := tags[nextId := MediaTag(tenantId, userId, dto.name, dto.image, hash(dto.name), dto.prettyName, dto.coreType, false, None)];
      nextId := nextId + 1;
      status := Success;
    }

    /** `updateMediaTag`: the tag is looked up by id alone and the body is
        not validated; a missing tag makes the field assignments throw (ERROR). */
    method UpdateMediaTag(id: Id, dto: Update.UpdateMediaTagDto, now: Timestamp) returns (status: Status)
      requires Valid()
      modifies this
      ensures Valid() && nextId == old(nextId)
      ensures status == (if id in old(tags) then Success else Error)
      ensures status == Success ==> tags == old(tags)[id := UpdatedMediaTag(old(tags)[id], dto, hash, now)]
      ensures status == Error ==> tags == old(tags)
    {
      if id !in tags {
        return Error;
      }
      var existing := tags[id];
      if Truthy(dto.name) { existing := existing.(name := dto.name); }
      if Truthy(dto.prettyName) { existing := existing.(prettyName := dto.prettyName); }
      if Truthy(dto.image) { existing := existing.(image := dto.image); }
      if Truthy(dto.name) { existing := existing.(nameHash := hash(dto.name)); }
      if Truthy(dto.coreType) { existing := existing.(coreType := dto.coreType); }
      existing := existing.(lastUpdatedAt := Some(now));
      tags := tags[id := existing];
      status := Success;
    }
  }
}
