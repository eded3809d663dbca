// backend/etl/models/dataset.py: the domain records the pipeline builds and
// the repository stores, and the search text derived from a dataset.

module DatasetModel {
  import opened Common
  import opened Strings
  import opened JsonValue
  import opened EtlDateUtils

  /** A coordinate, carried as the text of its number. */
  type NumText = string

  datatype SpatialExtent = SpatialExtent(west: Option<NumText>, east: Option<NumText>,
                                         south: Option<NumText>, north: Option<NumText>)

  datatype TemporalExtent = TemporalExtent(start: Option<Date>, end: Option<Date>)

  datatype Contact = Contact(
    role: string,
    familyName: Option<string>,
    givenName: Option<string>,
    fullName: Option<string>,
    honorificPrefix: Option<string>,
    organizationName: Option<string>,
    organizationIdentifier: Option<string>,
    email: Option<string>,
    nameIdentifier: Option<string>,
    address: Option<Json>,
    positionName: Option<string>,
    individualName: Option<string>)

  datatype Keyword = Keyword(
    keyword: string,
    keywordType: Option<string>,
    uri: Option<string>,
    inDefinedTermSet: Option<string>,
    thesaurus: Option<string>)

  datatype Relationship = Relationship(relationType: string, targetDatasetId: Option<string>)

  datatype OnlineResource = OnlineResource(
    url: Option<string>,
    name: Option<string>,
    description: Option<string>,
    resourceFunction: Option<string>,
    resourceType: Option<string>)

  datatype MetadataDocument = MetadataDocument(
    format: string,
    content: string,
    fileSize: int,
    downloadedAt: Option<DateTime>)

  datatype Dataset = Dataset(
    fileIdentifier: string,
    title: Option<string>,
    abstractText: Option<string>,
    description: Option<string>,
    lineage: Option<string>,
    publicationDate: Option<Date>,
    metadataDate: Option<DateTime>,
    updatedDate: Option<Date>,
    metadataStandard: Option<string>,
    metadataStandardVersion: Option<string>,
    language: Option<string>,
    resourceStatus: Option<string>,
    resourceType: Option<string>,
    spatialExtent: Option<SpatialExtent>,
    temporalExtent: Option<TemporalExtent>,
    creditText: Option<string>,
    isAccessibleForFree: Option<BooleanBind>,
    contacts: seq<Contact>,
    keywords: seq<Keyword>,
    relationships: seq<Relationship>,
    onlineResources: seq<OnlineResource>,
    metadataDocuments: seq<MetadataDocument>,
    additionalMetadata: Option<map<string, Json>>,
    purpose: Option<string>,
    creationDate: Option<Date>,
    id: Option<string>)

  /**
   * `Dataset(file_identifier=..., title=...)`: every optional field is None
   * and every collection an empty list.
   */
  function NewDataset(fileIdentifier: string, title: Option<string>): (d: Dataset)
    ensures d.fileIdentifier == fileIdentifier && d.title == title && d.id.None?
    ensures d.contacts == [] && d.keywords == [] && d.relationships == []
    ensures d.onlineResources == [] && d.metadataDocuments == []
    ensures d.spatialExtent.None? && d.temporalExtent.None?
  {
    Dataset(fileIdentifier, title, None, None, None, None, None, None, None, None, None, None, None,
            None, None, None, None, [], [], [], [], [], None, None, None, None)
  }

  /** An optional text where Python writes `x or ''`. */
  function OrEmpty(t: Option<string>): string {
    if t.Some? then t.value else []
  }

  /** The full names and organisation names of the contacts, in order, skipping empty ones. */
  function ContactNames(cs: seq<Contact>): (r: seq<string>)
    ensures |r| <= 2 * |cs|
    ensures forall k :: 0 <= k < |r| ==> r[k] != []
    ensures forall k :: 0 <= k < |r| ==>
      exists i :: 0 <= i < |cs| && (cs[i].fullName == Some(r[k]) || cs[i].organizationName == Some(r[k]))
    ensures forall i :: 0 <= i < |cs| && Present(cs[i].fullName) ==> cs[i].fullName.value in r
    ensures forall i :: 0 <= i < |cs| && Present(cs[i].organizationName) ==> cs[i].organizationName.value in r
  {
    if cs == [] then []
    else
      var c := cs[0];
      var rest := ContactNames(cs[1..]);
      assert forall i :: 1 <= i < |cs| ==> cs[i] == cs[1..][i - 1];
      (if Present(c.fullName) then [c.fullName.value] else [])
      + (if Present(c.organizationName) then [c.organizationName.value] else [])
      + rest
  }

  /** The names of two runs of contacts are the names of the first run, then those of the second. */
  lemma {:induction false} ContactNamesAppend(a: seq<Contact>, b: seq<Contact>)
    ensures ContactNames(a + b) == ContactNames(a) + ContactNames(b)
  {
    if a == [] {
      assert a + b == b;
    } else {
      assert (a + b)[0] == a[0] && (a + b)[1..] == a[1..] + b;
      ContactNamesAppend(a[1..], b);
    }
  }

  function KeywordTexts(ks: seq<Keyword>): (r: seq<string>)
    ensures |r| == |ks| && forall k :: 0 <= k < |ks| ==> r[k] == ks[k].keyword
  {
    seq(|ks|, k requires 0 <= k < |ks| => ks[k].keyword)
  }

  /**
   * The candidate parts of the search text before empty ones are
   * filtered out: title, abstract, description, lineage, then the keywords,
   * then the contact names, then the credit text.
   */
  function SearchParts(d: Dataset): seq<string> {
    [OrEmpty(d.title), OrEmpty(d.abstractText), OrEmpty(d.description), OrEmpty(d.lineage)]
    + (if d.keywords != [] then [Join(" ", KeywordTexts(d.keywords))] else [])
    + (if d.contacts != [] && ContactNames(d.contacts) != [] then [Join(" ", ContactNames(d.contacts))] else [])
    + (if Present(d.creditText) then [d.creditText.value] else [])
  }

  /** `filter(None, parts)`: drops the empty parts and keeps the order. */
  function NonEmpty(ps: seq<string>): (r: seq<string>)
    ensures forall k :: 0 <= k < |r| ==> r[k] != []
    ensures |r| <= |ps|
    ensures r == [] <==> forall k :: 0 <= k < |ps| ==> ps[k] == []
  {
    if ps == [] then []
    else if ps[0] == [] then NonEmpty(ps[1..])
    else [ps[0]] + NonEmpty(ps[1..])
  }

  lemma {:induction false} JoinStartsWith(sep: string, ps: seq<string>)
    requires ps != []
    ensures StartsWith(Join(sep, ps), ps[0])
  {
    if |ps| > 1 {
      assert Join(sep, ps) == ps[0] + (sep + Join(sep, ps[1..]));
    }
  }

  lemma {:induction false} JoinNonEmpty(sep: string, ps: seq<string>)
    requires forall k :: 0 <= k < |ps| ==> ps[k] != []
    ensures Join(sep, ps) == [] <==> ps == []
  {
    if ps != [] {
      JoinStartsWith(sep, ps);
    }
  }

  /**
   * `get_search_text`: the non-empty parts joined by single spaces. It is
   * empty only when every part is, and starts with the title when there is one.
   */
  function GetSearchText(d: Dataset): (r: string)
    ensures r == [] <==> forall k :: 0 <= k < |SearchParts(d)| ==> SearchParts(d)[k] == []
    ensures Present(d.title) ==> StartsWith(r, d.title.value)
  {
    var ps := NonEmpty(SearchParts(d));
    JoinNonEmpty(" ", ps);
    TitleLeads(d);
    Join(" ", ps)
  }

  lemma TitleLeads(d: Dataset)
    ensures Present(d.title) ==> StartsWith(Join(" ", NonEmpty(SearchParts(d))), d.title.value)
  {
    if Present(d.title) {
      var ps := NonEmpty(SearchParts(d));
      assert SearchParts(d)[0] == d.title.value;
      assert ps[0] == d.title.value;
      JoinStartsWith(" ", ps);
    }
  }

  /** Each keyword's text is one of the pieces the search text is made of. */
  lemma SearchTextHasKeywords(d: Dataset)
    requires d.keywords != [] && d.title.Some? && d.title.value != []
    ensures Join(" ", KeywordTexts(d.keywords)) in SearchParts(d)
    ensures NonEmpty(SearchParts(d))[0] == d.title.value
  {
    assert SearchParts(d)[4] == Join(" ", KeywordTexts(d.keywords));
  }
}
