/** The plugin's two controlled vocabularies: the COAR Resource Type Genres
    table and the audience list, and the option lists built from them for
    the section form's select elements. */
module Vocabulary {
  import opened PhpArray

  const CoarPrefix := "http://purl.org/coar/resource_type/"

  /** A URI of the COAR Resource Type vocabulary: the COAR prefix followed by
      a non-empty concept code. */
  predicate IsCoarUri(s: string)
  {
    |s| > |CoarPrefix| && CoarPrefix <= s
  }

  /** The fixed table of `_getCoarResourceType`: 17 resource types, URI => label. */
  function ResourceTypes(): (t: OrderedMap)
    ensures |t| == 17 && DistinctKeys(t)
    ensures forall i :: 0 <= i < |t| ==> IsCoarUri(t[i].key) && t[i].value != ""
    ensures t[0] == Entry("http://purl.org/coar/resource_type/c_6501", "journal article")
    ensures t[16] == Entry("http://purl.org/coar/resource_type/c_1843", "other")
  {
    [ Entry("http://purl.org/coar/resource_type/c_6501", "journal article"),
      Entry("http://purl.org/coar/resource_type/c_2df8fbb1", "research article"),
      Entry("http://purl.org/coar/resource_type/c_dcae04bc", "review article"),
      Entry("http://purl.org/coar/resource_type/c_beb9", "data paper"),
      Entry("http://purl.org/coar/resource_type/c_7bab", "software paper"),
      Entry("http://purl.org/coar/resource_type/c_b239", "editorial"),
      Entry("http://purl.org/coar/resource_type/c_545b", "letter to the editor"),
      Entry("http://purl.org/coar/resource_type/c_93fc", "report"),
      Entry("http://purl.org/coar/resource_type/c_efa0", "review"),
      Entry("http://purl.org/coar/resource_type/c_ba08", "book review"),
      Entry("http://purl.org/coar/resource_type/c_26e4", "interview"),
      Entry("http://purl.org/coar/resource_type/c_8544", "lecture"),
      Entry("http://purl.org/coar/resource_type/c_5794", "conference paper"),
      Entry("http://purl.org/coar/resource_type/c_46ec", "thesis"),
      Entry("http://purl.org/coar/resource_type/c_8042", "working paper"),
      Entry("http://purl.org/coar/resource_type/c_816b", "preprint"),
      Entry("http://purl.org/coar/resource_type/c_1843", "other") ]
  }

  /** No key of the table is '' or '0', the strings PHP treats as falsy. */
  lemma FalsyIsNoResourceType()
    ensures !HasKey(ResourceTypes(), "") && !HasKey(ResourceTypes(), "0")
  {
    var t := ResourceTypes();
    forall i | 0 <= i < |t|
      ensures t[i].key != "" && t[i].key != "0"
    {
      assert IsCoarUri(t[i].key);
    }
  }

  /** What `_getCoarResourceType` returns: the whole table, or one label that
      is absent (PHP null) when the URI is not a key. */
  datatype CoarLookup = AllTypes(table: OrderedMap) | OneType(typeLabel: Option<string>)

  /** `_getCoarResourceType($uri)`: a truthy URI is looked up in the table;
      a falsy one (null, '' or '0') returns the whole table. */
  function CoarResourceType(uri: Option<string>): (r: CoarLookup)
    ensures r.AllTypes? <==> !Truthy(uri)
    ensures r.AllTypes? ==> r.table == ResourceTypes()
    ensures r.OneType? ==> (r.typeLabel.Some? <==> HasKey(ResourceTypes(), uri.value))
  {
    var resourceTypes := ResourceTypes();
    if Truthy(uri) then OneType(Lookup(resourceTypes, uri.value)) else AllTypes(resourceTypes)
  }

  /** Looking up a URI yields a label exactly when that URI => label pair is
      in the table; any other string, an empty one included, never yields the
      label of some other entry. */
  lemma CoarResourceTypeLabel(uri: string, typeLabel: string)
    ensures CoarResourceType(Some(uri)) == OneType(Some(typeLabel))
            <==> Entry(uri, typeLabel) in ResourceTypes()
  {
    var t := ResourceTypes();
    FalsyIsNoResourceType();
    if Entry(uri, typeLabel) in t {
      var i :| 0 <= i < |t| && t[i] == Entry(uri, typeLabel);
      LookupAt(t, i);
    }
  }

  /** An example from the table: c_5794 is a conference paper. */
  lemma ConferencePaper()
    ensures CoarResourceType(Some("http://purl.org/coar/resource_type/c_5794"))
            == OneType(Some("conference paper"))
  {
    CoarResourceTypeLabel("http://purl.org/coar/resource_type/c_5794", "conference paper");
    assert ResourceTypes()[12] == Entry("http://purl.org/coar/resource_type/c_5794", "conference paper");
  }

  /** `_getResourceTypeOptions`: the choose-one entry under key '', then the
      whole resource-type table, as PHP's union `[''=> chooseOne] + table`.
      `chooseOne` is the localised "Choose One" label. */
  function ResourceTypeOptions(chooseOne: string): (r: OrderedMap)
    ensures |r| == 18 && DistinctKeys(r)
    ensures r[0] == Entry("", chooseOne) && r[1..] == ResourceTypes()
  {
    var resourceTypeOptions := CoarResourceType(None).table;
    var chooseOneOption := [Entry("", chooseOne)];
    FalsyIsNoResourceType();
    assert forall i :: 0 <= i < |resourceTypeOptions| ==> !HasKey(chooseOneOption, resourceTypeOptions[i].key);
    UnionDisjoint(chooseOneOption, resourceTypeOptions);
    Union(chooseOneOption, resourceTypeOptions)
  }

  /** `_getAudienceOptions`: the choose-one entry under key '', then the 14
      audiences, each stored under its own label. */
  function AudienceOptions(chooseOne: string): (r: OrderedMap)
    ensures |r| == 15 && DistinctKeys(r)
    ensures r[0] == Entry("", chooseOne)
    ensures forall i :: 1 <= i < |r| ==> r[i].key == r[i].value && r[i].key != ""
    ensures r[1].key == "Administrators" && r[14].key == "Teachers"
  {
    [ Entry("", chooseOne),
      Entry("Administrators", "Administrators"),
      Entry("Community Groups", "Community Groups"),
      Entry("Counsellors", "Counsellors"),
      Entry("Federal Funds Recipients and Applicants", "Federal Funds Recipients and Applicants"),
      Entry("Librarians", "Librarians"),
      Entry("News Media", "News Media"),
      Entry("Other", "Other"),
      Entry("Parents and Families", "Parents and Families"),
      Entry("Policymakers", "Policymakers"),
      Entry("Researchers", "Researchers"),
      Entry("School Support Staff", "School Support Staff"),
      Entry("Student Financial Aid Providers", "Student Financial Aid Providers"),
      Entry("Students", "Students"),
      Entry("Teachers", "Teachers") ]
  }

  /** For every non-empty code, the audience options map it to itself when
      it is an audience and to nothing otherwise. */
  lemma AudienceCodeIsLabel(chooseOne: string, code: string)
    requires code != ""
    ensures Lookup(AudienceOptions(chooseOne), code) == Some(code)
            || !HasKey(AudienceOptions(chooseOne), code)
  {
    var r := AudienceOptions(chooseOne);
    if HasKey(r, code) {
      var i :| 0 <= i < |r| && r[i].key == code;
      LookupAt(r, i);
    }
  }
}
