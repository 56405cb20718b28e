/** The minister service: validation of a new minister (the declared rules,
    then a unique name compared by its digest, then a known ministry),
    creation, the update that re-validates only a renamed minister,
    suspension, reactivation and deletion. */
module MinisterService {
  import opened Common
  import Create = CreateMinisterDto

  /** A minister document; name and image are held under `secret`. */
  datatype Minister = Minister(
    tenantId: TenantId,
    userId: UserId,
    name: Field,
    image: Field,
    nameHash: Digest,
    prettyName: Field,
    ministry: Field,
    coreType: Field,
    office: Field,
    isActive: bool,
    lastUpdatedAt: Option<Timestamp>)

  /** The update body: the five request fields the update reads, and the
      prettyName its body object carries. */
  datatype MinisterUpdate = MinisterUpdate(
    name: Field, image: Field, prettyName: Field, ministry: Field, coreType: Field, office: Field)

  /** The stored digest is the digest of the stored name. */
  predicate HashMatchesName(m: Minister, hash: Field -> Digest) {
    m.nameHash == hash(m.name)
  }

  /** The digest a minister is looked up by. */
  function NameHashOf(m: Minister): Digest {
    m.nameHash
  }

  /** `findValidMinistry` compared with 1: a ministry id that finds no
      ministry counts as invalid. */
  predicate UnknownMinistry(ministries: set<string>, ministry: Field) {
    Truthy(ministry) && ministry.value !in ministries
  }

  /** The errors of the name check: missing, or already taken. */
  function NameErrors(ministers: map<Id, Minister>, hash: Field -> Digest, name: Field): (errors: seq<Violation>)
    ensures errors == [] <==> Truthy(name) && forall id :: id in ministers ==> ministers[id].nameHash != hash(name)
    ensures |errors| <= 1
  {
    if !Truthy(name) then [RequiredError("Name", name)]
    else if CountWithDigest(ministers, NameHashOf, hash(name)) > 0 then [DuplicateError("Name", name)]
    else []
  }

  /** What `validateNewMinisterDetails` returns: the errors of the declared
      rules when there are any; otherwise the name's error, if any, followed
      by the ministry's, if any. */
  function NewMinisterErrors(ministers: map<Id, Minister>, ministries: set<string>, hash: Field -> Digest,
                             ruleErrors: seq<Violation>, name: Field, ministry: Field)
    : (errors: seq<Violation>)
    ensures ruleErrors != [] ==> errors == ruleErrors
    ensures ruleErrors == [] ==>
      (errors == [] <==>
         Truthy(name) && (forall id :: id in ministers ==> ministers[id].nameHash != hash(name))
         && !UnknownMinistry(ministries, ministry))
    ensures ruleErrors == [] ==> (RequiredError("Name", name) in errors <==> !Truthy(name))
    ensures ruleErrors == [] ==>
      (DuplicateError("Name", name) in errors <==>
         Truthy(name) && exists id :: id in ministers && ministers[id].nameHash == hash(name))
    ensures ruleErrors == [] ==>
      (InvalidDataError("Ministry", ministry) in errors <==> UnknownMinistry(ministries, ministry))
    ensures ruleErrors == [] ==> |errors| <= 2
  {
    if ruleErrors != [] then ruleErrors
    else
      NameErrors(ministers, hash, name)
      + (if UnknownMinistry(ministries, ministry) then [InvalidDataError("Ministry", ministry)] else [])
  }

  /** A creation never reports a missing name: the declared rules already
      reject an empty name. */
  lemma CreateNeverReportsRequired(ministers: map<Id, Minister>, ministries: set<string>, hash: Field -> Digest,
                                   dto: Create.CreateMinisterDto)
    ensures RequiredError("Name", dto.name)
      !in NewMinisterErrors(ministers, ministries, hash, Create.Validate(dto), dto.name, dto.ministry)
  {
    var errors := Create.Validate(dto);
    if errors != [] {
      forall e | e in errors ensures e.ConstraintViolation? {
        assert e.property in Reported(errors);
      }
    }
  }

  /** The document `saveNewMinisterData` builds. */
  function NewMinister(tenantId: TenantId, userId: UserId, dto: Create.CreateMinisterDto, hash: Field -> Digest)
    : (r: Minister)
    ensures HashMatchesName(r, hash)
    ensures r.tenantId == tenantId && r.userId == userId && !r.isActive && r.lastUpdatedAt.None?
    ensures r.name == dto.name && r.image == dto.image && r.prettyName == dto.prettyName
    ensures r.ministry == dto.ministry && r.coreType == dto.coreType && r.office == dto.office
  {
    Minister(tenantId, userId, dto.name, dto.image, hash(dto.name), dto.prettyName,
             dto.ministry, dto.coreType, dto.office, false, None)
  }

  /** The document after `updateMinisterData`: name, image, digest and
      prettyName are always written; ministry, coreType and office only when
      the body's value is truthy. */
  function UpdatedMinister(m: Minister, u: MinisterUpdate, hash: Field -> Digest, now: Timestamp): (r: Minister)
    ensures HashMatchesName(r, hash)
    ensures r.name == u.name && r.image == u.image && r.prettyName == u.prettyName
    ensures r.ministry == (if Truthy(u.ministry) then u.ministry else m.ministry)
    ensures r.coreType == (if Truthy(u.coreType) then u.coreType else m.coreType)
    ensures r.office == (if Truthy(u.office) then u.office else m.office)
    ensures r.tenantId == m.tenantId && r.userId == m.userId && r.isActive == m.isActive
    ensures r.lastUpdatedAt == Some(now)
  {
    m.(name := u.name, image := u.image, nameHash := hash(u.name), prettyName := u.prettyName,
       ministry := Overwrite(m.ministry, u.ministry),
       coreType := Overwrite(m.coreType, u.coreType),
       office := Overwrite(m.office, u.office),
       lastUpdatedAt := Some(now))
  }

  /** The status of `updateMinister`. A missing minister makes the name
      comparison throw (ERROR); an unchanged name skips every check; a new
      name runs the creation checks on the update body. */
  function UpdateMinisterStatus(ministers: map<Id, Minister>, ministries: set<string>, hash: Field -> Digest,
                                id: Id, u: MinisterUpdate, ruleErrors: seq<Violation>)
    : (status: Status)
    ensures status == Error <==> id !in ministers
    ensures status == Success <==>
      id in ministers
      && (ministers[id].name == u.name
          || NewMinisterErrors(ministers, ministries, hash, ruleErrors, u.name, u.ministry) == [])
    ensures status in {Success, Error, FailedValidation}
  {
    if id !in ministers then Error
    else if ministers[id].name == u.name then Success
    else if NewMinisterErrors(ministers, ministries, hash, ruleErrors, u.name, u.ministry) != [] then FailedValidation
    else Success
  }

  /** Keeping the stored name lets an update through whatever else it
      carries, an unknown ministry or broken rules included. */
  lemma KeptNameSkipsValidation(ministers: map<Id, Minister>, ministries: set<string>, hash: Field -> Digest,
                                id: Id, u: MinisterUpdate, ruleErrors: seq<Violation>)
    requires id in ministers && u.name == ministers[id].name
    ensures UpdateMinisterStatus(ministers, ministries, hash, id, u, ruleErrors) == Success
  {
  }

  /** Renaming a minister to a name some minister already has is refused. */
  lemma RenameToTakenNameRefused(ministers: map<Id, Minister>, ministries: set<string>, hash: Field -> Digest,
                                 id: Id, other: Id, u: MinisterUpdate)
    requires id in ministers && other in ministers
    requires u.name != ministers[id].name && Truthy(u.name)
    requires ministers[other].nameHash == hash(u.name)
    ensures UpdateMinisterStatus(ministers, ministries, hash, id, u, []) == FailedValidation
  {
    assert DuplicateError("Name", u.name) in NewMinisterErrors(ministers, ministries, hash, [], u.name, u.ministry);
  }

  /** Once a minister is stored, a creation with the same name is rejected as
      a duplicate, whatever ministry it names. */
  lemma CreatedNameIsTaken(ministers: map<Id, Minister>, ministries: set<string>, hash: Field -> Digest, id: Id,
                           tenantId: TenantId, userId: UserId, dto: Create.CreateMinisterDto, ministry: Field)
    requires Truthy(dto.name)
    ensures var after := ministers[id := NewMinister(tenantId, userId, dto, hash)];
      DuplicateError("Name", dto.name) in NewMinisterErrors(after, ministries, hash, [], dto.name, ministry)
  {
    var after := ministers[id := NewMinister(tenantId, userId, dto, hash)];
    assert after[id].nameHash == hash(dto.name);
  }

  class MinisterStore {
    const hash: Field -> Digest
    /** The ids of the stored ministries. */
    const ministries: set<string>
    var ministers: map<Id, Minister>
    var nextId: Id

    /** Identifiers below the next fresh one, and every digest in step with its name. */
    ghost predicate Valid()
      reads this
    {
      (forall id :: id in ministers ==> id < nextId)
      && (forall id :: id in ministers ==> HashMatchesName(ministers[id], hash))
    }

    constructor (hash: Field -> Digest, ministries: set<string>)
      ensures Valid() && this.hash == hash && this.ministries == ministries && ministers == map[]
    {
      this.hash := hash;
      this.ministries := ministries;
      ministers := map[];
      nextId := 0;
    }

    /** `validateNewMinisterDetails`, given the errors of the body's declared rules. */
    method ValidateNewMinisterDetails(ruleErrors: seq<Violation>, name: Field, ministry: Field)
      returns (errors: seq<Violation>)
      ensures errors == NewMinisterErrors(ministers, ministries, hash, ruleErrors, name, ministry)
    {
      errors := ruleErrors;
      if errors != [] {
        return;
      }
      if !Truthy(name) {
        errors := errors + [RequiredError("Name", name)];
      } else {
        var found := CountWithDigest(ministers, NameHashOf, hash(name));
        if found > 0 {
          errors := errors + [DuplicateError("Name", name)];
        }
      }
      if Truthy(ministry) {
        var known := ministry.value in ministries;
        if !known {
          errors := errors + [InvalidDataError("Ministry", ministry)];
        }
      }
    }

    /** `createMinister`: FAILED_VALIDATION with nothing stored, or the new
        minister under a fresh id. */
    method CreateMinister(tenantId: TenantId, userId: UserId, dto: Create.CreateMinisterDto) returns (status: Status)
      requires Valid()
      modifies this
      ensures Valid()
      ensures status == Success <==>
        NewMinisterErrors(old(ministers), ministries, hash, Create.Validate(dto), dto.name, dto.ministry) == []
      ensures status != Success ==> status == FailedValidation && ministers == old(ministers)
      ensures status == Success ==>
        old(nextId) !in old(ministers)
        && ministers == old(ministers)[old(nextId) := NewMinister(tenantId, userId, dto, hash)]
    {
      var errors := ValidateNewMinisterDetails(Create.Validate(dto), dto.name, dto.ministry);
      if errors != [] {
        return FailedValidation;
      }
      ministers := ministers[nextId := Minister(tenantId, userId, dto.name, dto.image, hash(dto.name),
                                                dto.prettyName, dto.ministry, dto.coreType, dto.office, false, None)];
      nextId := nextId + 1;
      status := Success;
    }

    /** `updateMinister`; `ruleErrors` are the errors of the update body's
        declared rules. */
    method UpdateMinister(id: Id, u: MinisterUpdate, ruleErrors: seq<Violation>, now: Timestamp)
      returns (status: Status)
      requires Valid()
      modifies this
      ensures Valid() && nextId == old(nextId)
      ensures status == UpdateMinisterStatus(old(ministers), ministries, hash, id, u, ruleErrors)
      ensures status == Success ==> ministers == old(ministers)[id := UpdatedMinister(old(ministers)[id], u, hash, now)]
      ensures status != Success ==> ministers == old(ministers)
    {
      if id !in ministers {
        return Error;
      }
      if ministers[id].name != u.name {
        var errors := ValidateNewMinisterDetails(ruleErrors, u.name, u.ministry);
        if errors != [] {
          return FailedValidation;
        }
      }
      UpdateMinisterData(id, u, now);
      status := Success;
    }

    /** `updateMinisterData` on a found minister. */
    method UpdateMinisterData(id: Id, u: MinisterUpdate, now: Timestamp)
      requires Valid() && id in ministers
      modifies this
      ensures Valid() && nextId == old(nextId)
      ensures ministers == old(ministers)[id := UpdatedMinister(old(ministers)[id], u, hash, now)]
    {
      var existing := ministers[id];
      existing := existing.(name := u.name, image := u.image, nameHash := hash(u.name), prettyName := u.prettyName);
      if Truthy(u.ministry) { existing := existing.(ministry := u.ministry); }
      if Truthy(u.coreType) { existing := existing.(coreType := u.coreType); }
      if Truthy(u.office) { existing := existing.(office := u.office); }
      existing := existing.(lastUpdatedAt := Some(now));
      ministers := ministers[id := existing];
    }

    /** The shared body of suspension and reactivation: NOT_FOUND leaves the
        store as it was; otherwise only the flag changes, whoever asks. */
    method SetActive(id: Id, active: bool) returns (status: Status)
      requires Valid()
      modifies this
      ensures Valid() && nextId == old(nextId)
      ensures status == (if id in old(ministers) then Success else NotFound)
      ensures status == Success ==> ministers == old(ministers)[id := old(ministers)[id].(isActive := active)]
      ensures status == NotFound ==> ministers == old(ministers)
    {
      if id !in ministers {
        return NotFound;
      }
      ministers := ministers[id := ministers[id].(isActive := active)];
      status := Success;
    }

    /** `suspendMinister`. */
    method SuspendMinister(id: Id) returns (status: Status)
      requires Valid()
      modifies this
      ensures Valid() && nextId == old(nextId)
      ensures status == (if id in old(ministers) then Success else NotFound)
      ensures status == Success ==> ministers == old(ministers)[id := old(ministers)[id].(isActive := false)]
      ensures status == NotFound ==> ministers == old(ministers)
    {
      status := SetActive(id, false);
    }

    /** `unSuspendMinister`. */
    method UnSuspendMinister(id: Id) returns (status: Status)
      requires Valid()
      modifies this
      ensures Valid() && nextId == old(nextId)
      ensures status == (if id in old(ministers) then Success else NotFound)
      ensures status == Success ==> ministers == old(ministers)[id := old(ministers)[id].(isActive := true)]
      ensures status == NotFound ==> ministers == old(ministers)
    {
      status := SetActive(id, true);
    }

    /** `deleteMinister`: ERROR when nothing was removed. */
    method DeleteMinister(id: Id) returns (status: Status)
      requires Valid()
      modifies this
      ensures Valid() && nextId == old(nextId)
      ensures status == (if id in old(ministers) then Success else Error)
      ensures ministers == old(ministers) - {id}
    {
      status := if id in ministers then Success else Error;
      ministers := ministers - {id};
    }
  }
}
