// backend/etl/extractors/json_extractor.py: maps the catalogue's JSON
// document onto the record the pipeline merges. `_parse_data` is a pure
// mapping; the `_extract_*` helpers are loops that append to a list, and
// each is modelled as a method proved equal to a specification function.

module JsonExtractor {
  import opened Common
  import opened Strings
  import opened JsonValue
  import opened EtlDateUtils
  import opened DatasetModel
  import opened BaseExtractor

  /** The dictionary `_parse_data` returns, with one field per key. */
  datatype JsonRecord = JsonRecord(
    fileIdentifier: Option<string>,
    title: Option<string>,
    abstractText: Option<string>,
    description: Option<string>,
    lineage: Option<string>,
    publicationDate: Option<Date>,
    metadataDate: Option<DateTime>,
    updatedDate: Option<Date>,
    resourceStatus: Option<string>,
    resourceType: Option<string>,
    spatialExtent: Option<SpatialExtent>,
    temporalExtent: Option<DatePair>,
    contacts: seq<Contact>,
    keywords: seq<Keyword>,
    relationships: seq<Relationship>,
    onlineResources: seq<OnlineResource>,
    additionalMetadata: Option<map<string, Json>>,
    rawJson: string,
    rawJsonSize: nat)

  /**
   * A coordinate, kept as the text `str` gives it: a JSON number's text or
   * a JSON string itself; null and an absent key read as None.
   */
  function NumOf(v: Option<Json>): (r: Option<NumText>)
    ensures v == Some(JNull) || v.None? ==> r.None?
    ensures v.Some? && v.value.JNum? ==> r == Some(v.value.text)
    ensures v.Some? && v.value.JStr? ==> r == Some(v.value.s)
  {
    match v
    case Some(JNum(t)) => Some(t)
    case Some(JStr(s)) => Some(s)
    case _ => None
  }

  /** `data.get(key, [])` iterated. */
  function ListAt(data: map<string, Json>, key: string): Result<seq<Json>> {
    Iter(LookupOr(data, key, JArr([])))
  }

  // ---------------------------------------------------------------- spatial

  /** `_extract_spatial_extent`: the four bounds of the first bounding box. */
  function SpatialOf(data: map<string, Json>): Result<Option<SpatialExtent>> {
    if "boundingBoxes" in data && Truthy(data["boundingBoxes"]) then
      var first := First(data["boundingBoxes"]);
      if first.Failed? || !first.value.JObj? then Failed(Raised)
      else
        var b := first.value.fields;
        Ok(Some(SpatialExtent(NumOf(Lookup(b, "westBoundLongitude")), NumOf(Lookup(b, "eastBoundLongitude")),
                              NumOf(Lookup(b, "southBoundLatitude")), NumOf(Lookup(b, "northBoundLatitude")))))
    else Ok(None)
  }

  /** Only the first bounding box is read; later ones never matter. */
  lemma SpatialIgnoresLaterBoxes(data: map<string, Json>, first: Json, rest1: seq<Json>, rest2: seq<Json>)
    ensures SpatialOf(data["boundingBoxes" := JArr([first] + rest1)])
         == SpatialOf(data["boundingBoxes" := JArr([first] + rest2)])
  {
  }

  /** Without a truthy `boundingBoxes` there is no extent, whatever else the document holds. */
  lemma SpatialAbsentWithoutBoxes(data: map<string, Json>)
    requires "boundingBoxes" !in data || !Truthy(data["boundingBoxes"])
    ensures SpatialOf(data) == Ok(None)
  {
  }

  // --------------------------------------------------------------- temporal

  /** `_extract_temporal_extent`: the begin and end of the first temporal extent. */
  function TemporalOf(data: map<string, Json>): Result<Option<DatePair>> {
    if "temporalExtents" in data && Truthy(data["temporalExtents"]) then
      var first := First(data["temporalExtents"]);
      if first.Failed? || !first.value.JObj? then Failed(Raised)
      else
        var e := first.value.fields;
        Ok(ParseTemporalExtent(Some(TextPair(TextOf(e, "begin"), TextOf(e, "end")))))
    else Ok(None)
  }

  // ------------------------------------------------------- publication date

  /**
   * `_extract_publication_date`: the top-level `publicationDate` when the
   * key exists, else `datasetReferenceDate.publicationDate`, else None.
   * Testing `in` on a text is a substring test and on an array a membership
   * test, after which indexing either raises.
   */
  function PublicationDateText(data: map<string, Json>): Result<Option<string>> {
    if "publicationDate" in data then Ok(Text(Some(data["publicationDate"])))
    else if "datasetReferenceDate" in data then
      match data["datasetReferenceDate"]
      case JObj(m) => Ok(TextOf(m, "publicationDate"))
      case JStr(s) => if Occurs("publicationDate", s) then Failed(Raised) else Ok(None)
      case JArr(a) => if JStr("publicationDate") in a then Failed(Raised) else Ok(None)
      case _ => Failed(Raised)
    else Ok(None)
  }

  /** A top-level publication date makes `datasetReferenceDate` irrelevant. */
  lemma PublicationDatePrefersTopLevel(data: map<string, Json>, reference: Json)
    requires "publicationDate" in data
    ensures PublicationDateText(data["datasetReferenceDate" := reference]) == PublicationDateText(data)
    ensures PublicationDateText(data) == Ok(TextOf(data, "publicationDate"))
  {
  }

  /** Without it, the reference date's own `publicationDate` is used. */
  lemma PublicationDateFallsBack(data: map<string, Json>, reference: map<string, Json>)
    requires "publicationDate" !in data
    ensures PublicationDateText(data["datasetReferenceDate" := JObj(reference)]) == Ok(TextOf(reference, "publicationDate"))
  {
  }

  // --------------------------------------------------------------- contacts

  /** One turn of the contacts loop: parties without a role are skipped. */
  function ContactOf(party: Json): (r: Result<Option<Contact>>)
    ensures r.Ok? <==> party.JObj?
    ensures r.Ok? && r.value.Some? <==> party.JObj? && Present(TextOf(party.fields, "role"))
    ensures r.Ok? && r.value.Some? ==>
      var c := r.value.value;
      Some(c.role) == TextOf(party.fields, "role")
      && (c.address.Some? <==> "address" in party.fields)
      && c.individualName.None?
  {
    if !party.JObj? then Failed(Raised)
    else
      var p := party.fields;
      var role := TextOf(p, "role");
      if !Present(role) then Ok(None)
      else Ok(Some(Contact(
        role := role.value,
        familyName := TextOf(p, "familyName"),
        givenName := TextOf(p, "givenName"),
        fullName := TextOf(p, "fullName"),
        honorificPrefix := TextOf(p, "honorificPrefix"),
        organizationName := TextOf(p, "organisationName"),
        organizationIdentifier := TextOf(p, "organisationIdentifier"),
        email := TextOf(p, "email"),
        nameIdentifier := TextOf(p, "nameIdentifier"),
        address := if "address" in p then Some(p["address"]) else None,
        positionName := TextOf(p, "positionName"),
        individualName := None)))
  }

  function ContactsOf(data: map<string, Json>): Result<seq<Contact>> {
    var parties := ListAt(data, "responsibleParties");
    if parties.Failed? then Failed(parties.reason) else Collect(parties.value, ContactOf)
  }

  /** `_extract_contacts`. */
  method ExtractContacts(data: map<string, Json>) returns (r: Result<seq<Contact>>)
    ensures r == ContactsOf(data)
  {
    var parties := ListAt(data, "responsibleParties");
    if parties.Failed? {
      return Failed(parties.reason);
    }
    var xs := parties.value;
    var contacts: seq<Contact> := [];
    var i := 0;
    ThenBounds([], Collect(xs, ContactOf));
    while i < |xs|
        invariant i <= |xs|
      invariant Collect(xs, ContactOf) == Then(contacts, Collect(xs[i..], ContactOf))
    {
      CollectStep(xs, i, ContactOf, contacts);
      var party := xs[i];
      if !party.JObj? {
        return Failed(Raised);
      }
      var role := TextOf(party.fields, "role");
      if Present(role) {
        var p := party.fields;
        var contact := Contact(
          role := role.value,
          familyName := TextOf(p, "familyName"),
          givenName := TextOf(p, "givenName"),
          fullName := TextOf(p, "fullName"),
          honorificPrefix := TextOf(p, "honorificPrefix"),
          organizationName := TextOf(p, "organisationName"),
          organizationIdentifier := TextOf(p, "organisationIdentifier"),
          email := TextOf(p, "email"),
          nameIdentifier := TextOf(p, "nameIdentifier"),
          address := None,
          positionName := TextOf(p, "positionName"),
          individualName := None);
        if "address" in p {
          contact := contact.(address := Some(p["address"]));
        }
        assert ContactOf(party) == Ok(Some(contact));
        contacts := contacts + [contact];
      } else {
        assert contacts + [] == contacts;
      }
      i := i + 1;
    }
    assert xs[i..] == [];
    ThenBounds(contacts, Ok([]));
    return Ok(contacts);
  }

  /** Every extracted contact has a non-empty role. */
  lemma ContactsHaveRoles(data: map<string, Json>)
    requires ContactsOf(data).Ok?
    ensures forall k :: 0 <= k < |ContactsOf(data).value| ==> ContactsOf(data).value[k].role != []
  {
    var xs := ListAt(data, "responsibleParties").value;
    forall k | 0 <= k < |ContactsOf(data).value| ensures ContactsOf(data).value[k].role != [] {
      CollectSound(xs, ContactOf, k);
    }
  }

  // --------------------------------------------------------------- keywords

  datatype KeywordGroup = Theme | Other | Project | Place {
    function Name(): string {
      match this
      case Theme => "theme"
      case Other => "other"
      case Project => "project"
      case Place => "place"
    }
    function Key(): string {
      match this
      case Theme => "keywordsTheme"
      case Other => "keywordsOther"
      case Project => "keywordsProject"
      case Place => "keywordsPlace"
    }
    function Rank(): nat {
      match this
      case Theme => 0
      case Other => 1
      case Project => 2
      case Place => 3
    }
  }

  /**
   * One turn of a keyword loop. Theme entries must be dictionaries; the
   * other groups also take a plain text. Empty values are skipped. Only
   * the theme, other and place groups read a `uri`.
   */
  function KeywordOf(g: KeywordGroup, kw: Json): (r: Result<Option<Keyword>>)
    ensures r.Ok? <==> kw.JObj? || g != Theme
    ensures r.Ok? && r.value.Some? ==>
      var k := r.value.value;
      k.keyword != [] && k.keywordType == Some(g.Name()) && k.thesaurus.None?
      && k.inDefinedTermSet.None? && (g == Project ==> k.uri.None?)
  {
    if g == Theme && !kw.JObj? then Failed(Raised)
    else
      var value := if kw.JObj? then TextOf(kw.fields, "value") else Text(Some(kw));
      var uri := if kw.JObj? && g != Project then TextOf(kw.fields, "uri") else None;
      if !Present(value) then Ok(None)
      else Ok(Some(Keyword(value.value, Some(g.Name()), uri, None, None)))
  }

  function KeywordFn(g: KeywordGroup): Json -> Result<Option<Keyword>> {
    kw => KeywordOf(g, kw)
  }

  function GroupOf(data: map<string, Json>, g: KeywordGroup): Result<seq<Keyword>> {
    var xs := ListAt(data, g.Key());
    if xs.Failed? then Failed(xs.reason) else Collect(xs.value, KeywordFn(g))
  }

  /** Two loops run one after the other. */
  function Append<T>(a: Result<seq<T>>, b: Result<seq<T>>): Result<seq<T>> {
    if a.Failed? then a else Then(a.value, b)
  }

  function KeywordsOf(data: map<string, Json>): Result<seq<Keyword>> {
    Append(Append(Append(GroupOf(data, Theme), GroupOf(data, Other)), GroupOf(data, Project)), GroupOf(data, Place))
  }

  /** One of the four loops of `_extract_keywords`. */
  method CollectGroup(data: map<string, Json>, g: KeywordGroup) returns (r: Result<seq<Keyword>>)
    ensures r == GroupOf(data, g)
  {
    var items := ListAt(data, g.Key());
    if items.Failed? {
      return Failed(items.reason);
    }
    var xs := items.value;
    var keywords: seq<Keyword> := [];
    var i := 0;
    ThenBounds([], Collect(xs, KeywordFn(g)));
    while i < |xs|
        invariant i <= |xs|
      invariant Collect(xs, KeywordFn(g)) == Then(keywords, Collect(xs[i..], KeywordFn(g)))
    {
      CollectStep(xs, i, KeywordFn(g), keywords);
      var kw := xs[i];
      if g == Theme && !kw.JObj? {
        return Failed(Raised);
      }
      var value := if kw.JObj? then TextOf(kw.fields, "value") else Text(Some(kw));
      if Present(value) {
        var uri := if kw.JObj? && g != Project then TextOf(kw.fields, "uri") else None;
        assert KeywordFn(g)(kw) == Ok(Some(Keyword(value.value, Some(g.Name()), uri, None, None)));
        keywords := keywords + [Keyword(value.value, Some(g.Name()), uri, None, None)];
      } else {
        assert KeywordFn(g)(kw) == Ok(None);
        assert keywords + [] == keywords;
      }
      i := i + 1;
    }
    assert xs[i..] == [];
    ThenBounds(keywords, Ok([]));
    return Ok(keywords);
  }

  /** `_extract_keywords`: theme, other, project and place keywords, in that order. */
  method ExtractKeywords(data: map<string, Json>) returns (r: Result<seq<Keyword>>)
    ensures r == KeywordsOf(data)
  {
    r := CollectGroup(data, Theme);
    if r.Failed? { return; }
    var other := CollectGroup(data, Other);
    r := Then(r.value, other);
    if r.Failed? { return; }
    var project := CollectGroup(data, Project);
    r := Then(r.value, project);
    if r.Failed? { return; }
    var place := CollectGroup(data, Place);
    r := Then(r.value, place);
  }

  function TypeRank(k: Keyword): nat {
    if k.keywordType == Some("theme") then 0
    else if k.keywordType == Some("other") then 1
    else if k.keywordType == Some("project") then 2
    else 3
  }

  lemma GroupTyped(data: map<string, Json>, g: KeywordGroup)
    requires GroupOf(data, g).Ok?
    ensures forall k :: 0 <= k < |GroupOf(data, g).value| ==>
      GroupOf(data, g).value[k].keyword != [] && GroupOf(data, g).value[k].keywordType == Some(g.Name())
  {
    var xs := ListAt(data, g.Key()).value;
    forall k | 0 <= k < |GroupOf(data, g).value|
      ensures GroupOf(data, g).value[k].keyword != [] && GroupOf(data, g).value[k].keywordType == Some(g.Name())
    {
      CollectSound(xs, KeywordFn(g), k);
    }
  }

  /**
   * Extracted keywords are never empty, each is typed by its group, and
   * the groups follow one another in the order theme, other, project, place.
   */
  lemma KeywordsOrderedByGroup(data: map<string, Json>)
    requires KeywordsOf(data).Ok?
    ensures var ks := KeywordsOf(data).value;
      forall k :: 0 <= k < |ks| ==>
        ks[k].keyword != [] && ks[k].keywordType in {Some("theme"), Some("other"), Some("project"), Some("place")}
    ensures var ks := KeywordsOf(data).value;
      forall i, j :: 0 <= i <= j < |ks| ==> TypeRank(ks[i]) <= TypeRank(ks[j])
  {
    var t, o, p, l := GroupOf(data, Theme), GroupOf(data, Other), GroupOf(data, Project), GroupOf(data, Place);
    GroupTyped(data, Theme);
    GroupTyped(data, Other);
    GroupTyped(data, Project);
    GroupTyped(data, Place);
    assert KeywordsOf(data).value == t.value + o.value + p.value + l.value;
    GroupsInOrder(t.value, o.value, p.value, l.value);
  }

  /** Four runs of keywords, each typed by its group, concatenated in group order. */
  lemma GroupsInOrder(t: seq<Keyword>, o: seq<Keyword>, p: seq<Keyword>, l: seq<Keyword>)
    requires forall k :: 0 <= k < |t| ==> t[k].keyword != [] && t[k].keywordType == Some("theme")
    requires forall k :: 0 <= k < |o| ==> o[k].keyword != [] && o[k].keywordType == Some("other")
    requires forall k :: 0 <= k < |p| ==> p[k].keyword != [] && p[k].keywordType == Some("project")
    requires forall k :: 0 <= k < |l| ==> l[k].keyword != [] && l[k].keywordType == Some("place")
    ensures var ks := t + o + p + l;
      forall k :: 0 <= k < |ks| ==>
        ks[k].keyword != [] && ks[k].keywordType in {Some("theme"), Some("other"), Some("project"), Some("place")}
    ensures var ks := t + o + p + l;
      forall i, j :: 0 <= i <= j < |ks| ==> TypeRank(ks[i]) <= TypeRank(ks[j])
  {
    var ks := t + o + p + l;
    assert "theme" != "other" && "theme" != "project" && "theme" != "place" by {
      assert "theme"[0] != "other"[0] && "theme"[0] != "project"[0] && "theme"[0] != "place"[0];
    }
    assert "other" != "project" && "other" != "place" && "project" != "place" by {
      assert "other"[0] != "project"[0] && "other"[0] != "place"[0] && "project"[1] != "place"[1];
    }
    forall k | 0 <= k < |ks|
      ensures ks[k].keyword != []
      ensures ks[k].keywordType in {Some("theme"), Some("other"), Some("project"), Some("place")}
      ensures TypeRank(ks[k]) == (if k < |t| then 0 else if k < |t| + |o| then 1
                                  else if k < |t| + |o| + |p| then 2 else 3)
    {
      if k < |t| { assert ks[k] == t[k]; }
      else if k < |t| + |o| { assert ks[k] == o[k - |t|]; }
      else if k < |t| + |o| + |p| { assert ks[k] == p[k - |t| - |o|]; }
      else { assert ks[k] == l[k - |t| - |o| - |p|]; }
    }
  }

  // ---------------------------------------------------------- relationships

  /**
   * One turn of the relationships loop: the relation type is the text
   * after the last `#` of `relation` (all of it when there is no `#`).
   */
  function RelationshipOf(rel: Json): (r: Result<Option<Relationship>>)
    ensures r.Ok? ==> r.value.Some?
    ensures r.Ok? ==> rel.JObj?
    ensures r.Ok? ==>
      var relation := LookupOr(rel.fields, "relation", JStr(""));
      var t := r.value.value.relationType;
      relation.JStr? && '#' !in t && |t| <= |relation.s| && t == relation.s[|relation.s| - |t|..]
      && ('#' !in relation.s ==> t == relation.s)
      && ('#' in relation.s ==> |t| < |relation.s| && relation.s[|relation.s| - |t| - 1] == '#')
      && r.value.value.targetDatasetId == TextOf(rel.fields, "target")
    ensures r.Ok? <==> rel.JObj? && LookupOr(rel.fields, "relation", JStr("")).JStr?
  {
    if !rel.JObj? then Failed(Raised)
    else
      var relation := LookupOr(rel.fields, "relation", JStr(""));
      if !relation.JStr? then Failed(Raised)
      else Ok(Some(Relationship(AfterLast(relation.s, '#'), TextOf(rel.fields, "target"))))
  }

  function RelationshipsOf(data: map<string, Json>): Result<seq<Relationship>> {
    var rels := ListAt(data, "relationships");
    if rels.Failed? then Failed(rels.reason) else Collect(rels.value, RelationshipOf)
  }

  /** `_extract_relationships`. */
  method ExtractRelationships(data: map<string, Json>) returns (r: Result<seq<Relationship>>)
    ensures r == RelationshipsOf(data)
  {
    var rels := ListAt(data, "relationships");
    if rels.Failed? {
      return Failed(rels.reason);
    }
    var xs := rels.value;
    var relationships: seq<Relationship> := [];
    var i := 0;
    ThenBounds([], Collect(xs, RelationshipOf));
    while i < |xs|
        invariant i <= |xs|
      invariant Collect(xs, RelationshipOf) == Then(relationships, Collect(xs[i..], RelationshipOf))
    {
      CollectStep(xs, i, RelationshipOf, relationships);
      var rel := xs[i];
      if !rel.JObj? {
        return Failed(Raised);
      }
      var relation := LookupOr(rel.fields, "relation", JStr(""));
      if !relation.JStr? {
        return Failed(Raised);
      }
      var relationType := if '#' in relation.s then AfterLast(relation.s, '#') else relation.s;
      relationships := relationships + [Relationship(relationType, TextOf(rel.fields, "target"))];
      i := i + 1;
    }
    assert xs[i..] == [];
    ThenBounds(relationships, Ok([]));
    return Ok(relationships);
  }

  /** Every input relationship yields exactly one output, in order. */
  lemma {:induction false} RelationshipsOnePerEntry(xs: seq<Json>)
    requires Collect(xs, RelationshipOf).Ok?
    ensures |Collect(xs, RelationshipOf).value| == |xs|
    decreases |xs|
  {
    if xs != [] {
      RelationshipsOnePerEntry(xs[1..]);
    }
  }

  // ------------------------------------------------------- online resources

  /** One `onlineResources` or `infoLinks` entry: its `type` key becomes the resource type. */
  function ResourceOf(x: Json): (r: Result<Option<OnlineResource>>)
    ensures r.Ok? <==> x.JObj?
    ensures r.Ok? ==> r.value.Some?
    ensures r.Ok? ==>
      var o := r.value.value;
      o.url == TextOf(x.fields, "url") && o.name == TextOf(x.fields, "name")
      && o.description == TextOf(x.fields, "description")
      && o.resourceFunction == TextOf(x.fields, "function") && o.resourceType == TextOf(x.fields, "type")
  {
    if !x.JObj? then Failed(Raised)
    else
      var m := x.fields;
      Ok(Some(OnlineResource(TextOf(m, "url"), TextOf(m, "name"), TextOf(m, "description"),
                             TextOf(m, "function"), TextOf(m, "type"))))
  }

  function ResourcesOf(data: map<string, Json>): Result<seq<OnlineResource>> {
    var online := ListAt(data, "onlineResources");
    var links := ListAt(data, "infoLinks");
    Append(if online.Failed? then Failed(online.reason) else Collect(online.value, ResourceOf),
           if links.Failed? then Failed(links.reason) else Collect(links.value, ResourceOf))
  }

  method CollectResources(xs: seq<Json>) returns (r: Result<seq<OnlineResource>>)
    ensures r == Collect(xs, ResourceOf)
  {
    var resources: seq<OnlineResource> := [];
    var i := 0;
    ThenBounds([], Collect(xs, ResourceOf));
    while i < |xs|
        invariant i <= |xs|
      invariant Collect(xs, ResourceOf) == Then(resources, Collect(xs[i..], ResourceOf))
    {
      CollectStep(xs, i, ResourceOf, resources);
      if !xs[i].JObj? {
        return Failed(Raised);
      }
      var m := xs[i].fields;
      resources := resources + [OnlineResource(TextOf(m, "url"), TextOf(m, "name"), TextOf(m, "description"),
                                               TextOf(m, "function"), TextOf(m, "type"))];
      i := i + 1;
    }
    assert xs[i..] == [];
    ThenBounds(resources, Ok([]));
    return Ok(resources);
  }

  /** `_extract_online_resources`: the `onlineResources` entries, then the `infoLinks` entries. */
  method ExtractOnlineResources(data: map<string, Json>) returns (r: Result<seq<OnlineResource>>)
    ensures r == ResourcesOf(data)
  {
    var online := ListAt(data, "onlineResources");
    if online.Failed? {
      return Failed(online.reason);
    }
    r := CollectResources(online.value);
    if r.Failed? {
      return;
    }
    var links := ListAt(data, "infoLinks");
    if links.Failed? {
      return Failed(links.reason);
    }
    var more := CollectResources(links.value);
    r := Then(r.value, more);
  }

  // ---------------------------------------------------- additional metadata

  /** The nine keys kept as additional metadata, under their stored names. */
  const AdditionalNames: set<string> := {"service", "spatial_resolutions", "distribution_formats", "funding",
    "inspire_themes", "spatial_reference_systems", "use_constraints", "licences", "topic_categories"}

  /** The catalogue key each stored name is copied from. */
  function SourceKey(name: string): string {
    match name
    case "spatial_resolutions" => "spatialResolutions"
    case "distribution_formats" => "distributionFormats"
    case "inspire_themes" => "inspireThemes"
    case "spatial_reference_systems" => "spatialReferenceSystems"
    case "use_constraints" => "useConstraints"
    case "topic_categories" => "topicCategories"
    case _ => name
  }

  /** One `if key in data: additional[name] = data[key]`. */
  function CopyIf(data: map<string, Json>, additional: map<string, Json>, name: string): map<string, Json> {
    if SourceKey(name) in data then additional[name := data[SourceKey(name)]] else additional
  }

  /** The nine copies of `_extract_additional_metadata`, in source order. */
  function CopyKnownKeys(data: map<string, Json>): map<string, Json> {
    var a := CopyIf(data, CopyIf(data, CopyIf(data, map[], "service"), "spatial_resolutions"), "distribution_formats");
    var b := CopyIf(data, CopyIf(data, CopyIf(data, a, "funding"), "inspire_themes"), "spatial_reference_systems");
    CopyIf(data, CopyIf(data, CopyIf(data, b, "use_constraints"), "licences"), "topic_categories")
  }

  /** `_extract_additional_metadata`: the copied keys, or None when there are none. */
  function AdditionalOf(data: map<string, Json>): Option<map<string, Json>> {
    var m := CopyKnownKeys(data);
    if m == map[] then None else Some(m)
  }

  /** One name: it is kept exactly when it is known and its source key is present. */
  lemma CopyKnownKey(data: map<string, Json>, n: string)
    ensures n in CopyKnownKeys(data) <==> n in AdditionalNames && SourceKey(n) in data
    ensures n in CopyKnownKeys(data) ==> CopyKnownKeys(data)[n] == data[SourceKey(n)]
  {
    CopyKnownMember(data, n);
    CopyKnownValue(data, n);
  }

  /** The stored names are exactly the known names whose source key is present. */
  lemma CopyKnownMember(data: map<string, Json>, n: string)
    ensures n in CopyKnownKeys(data) <==> n in AdditionalNames && SourceKey(n) in data
  {
    var m0: map<string, Json> := map[];
    var m1 := CopyIf(data, m0, "service");
    var m2 := CopyIf(data, m1, "spatial_resolutions");
    var m3 := CopyIf(data, m2, "distribution_formats");
    var m4 := CopyIf(data, m3, "funding");
    var m5 := CopyIf(data, m4, "inspire_themes");
    var m6 := CopyIf(data, m5, "spatial_reference_systems");
    var m7 := CopyIf(data, m6, "use_constraints");
    var m8 := CopyIf(data, m7, "licences");
    var m9 := CopyIf(data, m8, "topic_categories");
    assert CopyKnownKeys(data) == m9;
    CopyIfMember(data, m0, "service", n);
    CopyIfMember(data, m1, "spatial_resolutions", n);
    CopyIfMember(data, m2, "distribution_formats", n);
    CopyIfMember(data, m3, "funding", n);
    CopyIfMember(data, m4, "inspire_themes", n);
    CopyIfMember(data, m5, "spatial_reference_systems", n);
    CopyIfMember(data, m6, "use_constraints", n);
    CopyIfMember(data, m7, "licences", n);
    CopyIfMember(data, m8, "topic_categories", n);
  }

  /** Every stored value is the one found under the name's source key. */
  lemma CopyKnownValue(data: map<string, Json>, n: string)
    ensures n in CopyKnownKeys(data) ==> CopyKnownKeys(data)[n] == data[SourceKey(n)]
  {
    var m0: map<string, Json> := map[];
    var m1 := CopyIf(data, m0, "service");
    var m2 := CopyIf(data, m1, "spatial_resolutions");
    var m3 := CopyIf(data, m2, "distribution_formats");
    var m4 := CopyIf(data, m3, "funding");
    var m5 := CopyIf(data, m4, "inspire_themes");
    var m6 := CopyIf(data, m5, "spatial_reference_systems");
    var m7 := CopyIf(data, m6, "use_constraints");
    var m8 := CopyIf(data, m7, "licences");
    var m9 := CopyIf(data, m8, "topic_categories");
    assert CopyKnownKeys(data) == m9;
    CopyIfValue(data, m0, "service", n);
    CopyIfValue(data, m1, "spatial_resolutions", n);
    CopyIfValue(data, m2, "distribution_formats", n);
    CopyIfValue(data, m3, "funding", n);
    CopyIfValue(data, m4, "inspire_themes", n);
    CopyIfValue(data, m5, "spatial_reference_systems", n);
    CopyIfValue(data, m6, "use_constraints", n);
    CopyIfValue(data, m7, "licences", n);
    CopyIfValue(data, m8, "topic_categories", n);
  }

  /** One copy adds `name` when its source key is present, and no other name. */
  lemma CopyIfMember(data: map<string, Json>, m: map<string, Json>, name: string, n: string)
    ensures n in CopyIf(data, m, name) <==> n in m || (n == name && SourceKey(n) in data)
  {
  }

  /** One copy keeps every stored value equal to the value under its source key. */
  lemma CopyIfValue(data: map<string, Json>, m: map<string, Json>, name: string, n: string)
    requires n in m ==> SourceKey(n) in data && m[n] == data[SourceKey(n)]
    ensures n in CopyIf(data, m, name) ==> SourceKey(n) in data && CopyIf(data, m, name)[n] == data[SourceKey(n)]
  {
  }

  /**
   * Exactly the nine known keys present in the document are kept, each
   * with its value unchanged; nothing else of the document is.
   */
  lemma AdditionalExactlyKnownKeys(data: map<string, Json>)
    ensures AdditionalOf(data).None? <==> forall n :: n in AdditionalNames ==> SourceKey(n) !in data
    ensures AdditionalOf(data).Some? ==>
      forall n :: n in AdditionalOf(data).value <==> n in AdditionalNames && SourceKey(n) in data
    ensures AdditionalOf(data).Some? ==>
      forall n :: n in AdditionalOf(data).value ==> AdditionalOf(data).value[n] == data[SourceKey(n)]
  {
    forall n {
      CopyKnownKey(data, n);
    }
    if AdditionalOf(data).None? {
      assert forall n :: n !in CopyKnownKeys(data);
    }
  }

  // ------------------------------------------------------------ _parse_data

  /**
   * `_parse_data`: the body must decode to a JSON object. `abstract` and
   * `description` are both the document's `description`.
   */
  function ParseData(p: Payload, fromIso: string -> Option<DateTime>): (r: Result<JsonRecord>)
    ensures r.Ok? ==> p.json.Some? && p.json.value.JObj?
    ensures r.Ok? ==> r.value.rawJson == p.text && r.value.rawJsonSize == p.size
    ensures r.Ok? ==> r.value.abstractText == r.value.description == TextOf(p.json.value.fields, "description")
    ensures r.Ok? ==> r.value.fileIdentifier == TextOf(p.json.value.fields, "id")
                      && r.value.title == TextOf(p.json.value.fields, "title")
  {
    if p.json.None? || !p.json.value.JObj? then Failed(Raised)
    else
      var data := p.json.value.fields;
      var published := PublicationDateText(data);
      var spatial := SpatialOf(data);
      var temporal := TemporalOf(data);
      var contacts := ContactsOf(data);
      var keywords := KeywordsOf(data);
      var relationships := RelationshipsOf(data);
      var resources := ResourcesOf(data);
      if published.Failed? || spatial.Failed? || temporal.Failed? || contacts.Failed?
         || keywords.Failed? || relationships.Failed? || resources.Failed? then Failed(Raised)
      else Ok(JsonRecord(
        fileIdentifier := TextOf(data, "id"),
        title := TextOf(data, "title"),
        abstractText := TextOf(data, "description"),
        description := TextOf(data, "description"),
        lineage := TextOf(data, "lineage"),
        publicationDate := ParseDate(published.value),
        metadataDate := ParseDateTime(TextOf(data, "metadataDate"), fromIso),
        updatedDate := ParseDate(TextOf(data, "updatedDate")),
        resourceStatus := TextOf(data, "resourceStatus"),
        resourceType := TextOf(data, "type"),
        spatialExtent := spatial.value,
        temporalExtent := temporal.value,
        contacts := contacts.value,
        keywords := keywords.value,
        relationships := relationships.value,
        onlineResources := resources.value,
        additionalMetadata := AdditionalOf(data),
        rawJson := p.text,
        rawJsonSize := p.size))
  }

  /** A body that is not a JSON object fails to parse. */
  lemma ParseDataNeedsObject(p: Payload, fromIso: string -> Option<DateTime>)
    requires p.json.None? || !p.json.value.JObj?
    ensures ParseData(p, fromIso).Failed?
  {
  }

  /** `validate`: both the file identifier and the title are non-empty. */
  function Validate(r: JsonRecord): (ok: bool)
    ensures ok <==> Present(r.fileIdentifier) && Present(r.title)
  {
    Present(r.fileIdentifier) && Present(r.title)
  }
}
