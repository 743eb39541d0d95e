/** The two section fields the plugin adds, `resourceType` and `audience`:
    registering them with the section store, loading them into the section
    form, reading them from the request, and saving them back. */
module SectionFields {
  import opened PhpArray
  import Vocabulary

  const ResourceTypeField := "resourceType"
  const AudienceField := "audience"

  /** The host's context id when a request has no journal context. */
  const ContextIdNone := 0

  /** A stored section: its id, its journal (context) and the two plugin
      fields, each None (PHP null) until first saved. */
  datatype Section = Section(id: int, contextId: int, resourceType: Option<string>, audience: Option<string>)

  /** The section store is keyed by section id. */
  ghost predicate WellKeyed(sections: map<int, Section>)
  {
    forall k :: k in sections ==> sections[k].id == k
  }

  /** The host's section lookup by id, restricted to one context when one is
      given; None stands for PHP null. */
  function GetById(sections: map<int, Section>, sectionId: int, contextId: Option<int>): Option<Section>
  {
    if sectionId in sections && (contextId.None? || sections[sectionId].contextId == contextId.value)
    then Some(sections[sectionId])
    else None
  }

  /** The host's section DAO: the store of sections, keyed by id. */
  class SectionDao {
    var sections: map<int, Section>

    ghost predicate Valid()
      reads this
    {
      WellKeyed(sections)
    }

    constructor (sections: map<int, Section>)
      requires WellKeyed(sections)
      ensures Valid() && this.sections == sections
    {
      this.sections := sections;
    }

    /** Writes a section back over the stored record with the same id. */
    method UpdateObject(section: Section)
      requires Valid() && section.id in sections
      modifies this
      ensures Valid() && sections == old(sections)[section.id := section]
    {
      sections := sections[section.id := section];
    }
  }

  /** The host's section editing form: the id of the section it edits and
      its data, keyed by field name. */
  class SectionForm {
    const sectionId: int
    var data: map<string, Option<string>>

    constructor (sectionId: int)
      ensures this.sectionId == sectionId && data == map[]
    {
      this.sectionId := sectionId;
      data := map[];
    }

    /** `getData($key)`: null for a key never set. */
    function GetData(key: string): Option<string>
      reads this
    {
      if key in data then data[key] else None
    }

    method SetData(key: string, value: Option<string>)
      modifies this
      ensures data == old(data)[key := value]
    {
      data := data[key := value];
    }
  }

  /** `addSectionDAOFieldNames`: the list of additional section fields,
      passed by reference in the source, gains `resourceType` and then
      `audience` at its end. */
  method AddSectionDAOFieldNames(fields: seq<string>) returns (extended: seq<string>)
    ensures |extended| == |fields| + 2 && extended[..|fields|] == fields
    ensures extended[|fields|] == ResourceTypeField && extended[|fields| + 1] == AudienceField
  {
    extended := fields;
    extended := extended + [ResourceTypeField];
    extended := extended + [AudienceField];
  }

  /** The form data after `initDataSectionFormFields`: when the section is
      found in the given context, its two stored values replace the form's;
      otherwise the form data stays as it was. */
  function LoadSection(data: map<string, Option<string>>, sections: map<int, Section>,
                       sectionId: int, contextId: int): map<string, Option<string>>
  {
    match GetById(sections, sectionId, Some(contextId))
    case None => data
    case Some(section) => data[ResourceTypeField := section.resourceType][AudienceField := section.audience]
  }

  /** `initDataSectionFormFields`; `requestContext` is the id of the
      request's journal, None when the request has no journal. */
  method InitDataSectionFormFields(form: SectionForm, dao: SectionDao, requestContext: Option<int>)
    modifies form
    ensures form.data == LoadSection(old(form.data), dao.sections, form.sectionId,
                                     if requestContext.Some? then requestContext.value else ContextIdNone)
  {
    var contextId := if requestContext.Some? then requestContext.value else ContextIdNone;
    var section := GetById(dao.sections, form.sectionId, Some(contextId));
    if section.Some? {
      form.SetData(ResourceTypeField, section.value.resourceType);
      form.SetData(AudienceField, section.value.audience);
    }
  }

  /** The request's `getUserVar($key)`: null for a variable not submitted. */
  function UserVar(userVars: map<string, string>, key: string): Option<string>
  {
    if key in userVars then Some(userVars[key]) else None
  }

  /** The form data after `readSectionFormFields`: both fields hold what the
      request submitted, null where nothing was. */
  function ReadUserVars(data: map<string, Option<string>>, userVars: map<string, string>): map<string, Option<string>>
  {
    data[ResourceTypeField := UserVar(userVars, ResourceTypeField)][AudienceField := UserVar(userVars, AudienceField)]
  }

  /** `readSectionFormFields`. */
  method ReadSectionFormFields(form: SectionForm, userVars: map<string, string>)
    modifies form
    ensures form.data == ReadUserVars(old(form.data), userVars)
  {
    form.SetData(ResourceTypeField, UserVar(userVars, ResourceTypeField));
    form.SetData(AudienceField, UserVar(userVars, AudienceField));
  }

  /** `$v ? $v : ''`: a falsy form value becomes ''. */
  function Normalise(v: Option<string>): (s: string)
    ensures s == "" <==> !Truthy(v)
    ensures Truthy(v) ==> s == v.value
  {
    if Truthy(v) then v.value else ""
  }

  /** How a save ended: skipped because no resource type was chosen, both
      fields written, or stopped because the form's section is not in the
      store (where the source calls `setData` on null and fails). */
  datatype SaveStatus = Skipped | Updated | SectionMissing

  datatype SaveResult = SaveResult(status: SaveStatus, sections: map<int, Section>)

  /** A stored section whose resource type is set: truthy, as the save
      guard's `!empty()` understands it. */
  predicate HasResourceType(section: Section)
  {
    Truthy(section.resourceType)
  }

  /** The section store after `executeSectionFormFields`, given the form's
      section id and its two values. */
  function Save(sections: map<int, Section>, sectionId: int,
                resourceType: Option<string>, audience: Option<string>): (r: SaveResult)
    // no resource type: nothing is persisted, not even a chosen audience
    ensures !Truthy(resourceType) ==> r == SaveResult(Skipped, sections)
    ensures r.status == Updated <==> Truthy(resourceType) && sectionId in sections
    ensures r.status != Updated ==> r.sections == sections
    // a resource type for a section the store lacks: the source calls setData on null
    ensures Truthy(resourceType) && sectionId !in sections ==> r.status == SectionMissing
    // otherwise both fields of that one section are overwritten, unchecked
    ensures r.sections.Keys == sections.Keys
    ensures r.status == Updated ==>
              && r.sections[sectionId].id == sections[sectionId].id
              && r.sections[sectionId].contextId == sections[sectionId].contextId
              && r.sections[sectionId].resourceType == resourceType
              && r.sections[sectionId].audience == Some(if Truthy(audience) then audience.value else "")
    ensures forall k :: k in sections && k != sectionId ==> r.sections[k] == sections[k]
    // a set resource type is never cleared
    ensures forall k :: k in sections && HasResourceType(sections[k]) ==> HasResourceType(r.sections[k])
  {
    var resourceTypeValue := Normalise(resourceType);
    var audienceValue := Normalise(audience);
    if IsEmpty(resourceTypeValue) then SaveResult(Skipped, sections)
    else
      match GetById(sections, sectionId, None)
      case None => SaveResult(SectionMissing, sections)
      case Some(section) =>
        var updated := section.(resourceType := Some(resourceTypeValue), audience := Some(audienceValue));
        SaveResult(Updated, sections[sectionId := updated])
  }

  /** `executeSectionFormFields`. */
  method ExecuteSectionFormFields(form: SectionForm, dao: SectionDao) returns (status: SaveStatus)
    requires dao.Valid()
    modifies dao
    ensures dao.Valid()
    ensures SaveResult(status, dao.sections)
            == Save(old(dao.sections), form.sectionId, form.GetData(ResourceTypeField), form.GetData(AudienceField))
  {
    var resourceType := Normalise(form.GetData(ResourceTypeField));
    var audience := Normalise(form.GetData(AudienceField));
    if !IsEmpty(resourceType) {
      var section := GetById(dao.sections, form.sectionId, None);
      if section.None? {
        return SectionMissing;
      }
      var updated := section.value.(resourceType := Some(resourceType));
      updated := updated.(audience := Some(audience));
      dao.UpdateObject(updated);
      status := Updated;
    } else {
      status := Skipped;
    }
  }

  /** One submission of the section form: the section edited and the two
      values the form holds when it is saved. */
  datatype Submission = Submission(sectionId: int, resourceType: Option<string>, audience: Option<string>)

  /** The section store after saving a series of submissions in order. */
  function SaveAll(sections: map<int, Section>, submissions: seq<Submission>): map<int, Section>
  {
    if submissions == [] then sections
    else
      var s := submissions[0];
      SaveAll(Save(sections, s.sectionId, s.resourceType, s.audience).sections, submissions[1..])
  }

  /** Once a section's resource type is set, no series of saves clears it:
      the section stays in the store with a truthy resource type. */
  lemma {:induction false} ResourceTypeNeverCleared(sections: map<int, Section>, submissions: seq<Submission>, k: int)
    requires k in sections && HasResourceType(sections[k])
    ensures k in SaveAll(sections, submissions) && HasResourceType(SaveAll(sections, submissions)[k])
  {
    if submissions != [] {
      var s := submissions[0];
      var next := Save(sections, s.sectionId, s.resourceType, s.audience).sections;
      ResourceTypeNeverCleared(next, submissions[1..], k);
    }
  }

  /** Saving keeps the store keyed by section id. */
  lemma SaveKeepsWellKeyed(sections: map<int, Section>, sectionId: int,
                           resourceType: Option<string>, audience: Option<string>)
    requires WellKeyed(sections)
    ensures WellKeyed(Save(sections, sectionId, resourceType, audience).sections)
  {
  }

  /** The form lifecycle end to end: the request submits a resource type and
      an audience, the form is saved, and a later load of the section in its
      own journal puts exactly the saved values into the form (a missing
      audience as ''). */
  lemma SubmitSaveLoad(data: map<string, Option<string>>, userVars: map<string, string>,
                       sections: map<int, Section>, sectionId: int, later: map<string, Option<string>>)
    requires sectionId in sections && Truthy(UserVar(userVars, ResourceTypeField))
    ensures
      var form := ReadUserVars(data, userVars);
      var saved := Save(sections, sectionId, form[ResourceTypeField], form[AudienceField]);
      var loaded := LoadSection(later, saved.sections, sectionId, sections[sectionId].contextId);
      && saved.status == Updated
      && loaded[ResourceTypeField] == Some(userVars[ResourceTypeField])
      && loaded[AudienceField] == Some(if AudienceField in userVars && Truthy(Some(userVars[AudienceField]))
                                       then userVars[AudienceField] else "")
  {
  }

  /** A load for a section that is not in the store, or not in the
      requested journal, leaves the form data as it was. */
  lemma LoadMissingSection(data: map<string, Option<string>>, sections: map<int, Section>,
                           sectionId: int, contextId: int)
    requires sectionId !in sections || sections[sectionId].contextId != contextId
    ensures LoadSection(data, sections, sectionId, contextId) == data
  {
  }

  /** Saving with an empty resource type leaves the store as it was even
      when an audience was chosen. */
  lemma AudienceAloneIsNotSaved(sections: map<int, Section>, sectionId: int)
    ensures Save(sections, sectionId, Some(""), Some("Students")).sections == sections
  {
  }

  /** Saving a resource type without an audience erases a stored audience. */
  lemma SaveErasesAudience(sections: map<int, Section>, sectionId: int)
    requires sectionId in sections && sections[sectionId].audience == Some("Teachers")
    ensures Save(sections, sectionId, Some("http://purl.org/coar/resource_type/c_5794"), None)
              .sections[sectionId].audience == Some("")
  {
  }

  /** Saving does not check either value against the vocabularies: a string
      that is no COAR resource type is stored as given. */
  lemma SaveDoesNotValidate(sections: map<int, Section>, sectionId: int)
    requires sectionId in sections
    ensures !HasKey(Vocabulary.ResourceTypes(), "not-a-real-uri")
    ensures Save(sections, sectionId, Some("not-a-real-uri"), Some("Nobody")).sections[sectionId].resourceType
            == Some("not-a-real-uri")
  {
    var t := Vocabulary.ResourceTypes();
    forall i | 0 <= i < |t|
      ensures t[i].key != "not-a-real-uri"
    {
      assert Vocabulary.IsCoarUri(t[i].key);
      assert t[i].key[0] == 'h';
    }
  }
}
