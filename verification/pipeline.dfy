// backend/etl/pipeline.py: extracts one dataset in all four formats, merges
// the records field by field with a fixed source priority, and stores the
// result.

module Pipeline {
  import opened Common
  import opened Strings
  import opened JsonValue
  import opened EtlDateUtils
  import opened DatasetModel
  import opened BaseExtractor
  import JsonExtractor
  import JsonLdExtractor
  import opened DbSchema
  import opened DatasetRepository

  type JsonRecord = JsonExtractor.JsonRecord
  type JsonLdRecord = JsonLdExtractor.JsonLdRecord

  /**
   * The ISO 19115 XML record. Its parser is an XML library and is a
   * parameter here; only the keys the merge reads are kept, plus `purpose`
   * and `creationDate`, which the merge drops.
   */
  datatype XmlRecord = XmlRecord(
    fileIdentifier: Option<string>,
    title: Option<string>,
    abstractText: Option<string>,
    purpose: Option<string>,
    lineage: Option<string>,
    contacts: seq<Contact>,
    keywords: seq<Keyword>,
    onlineResources: seq<OnlineResource>,
    temporalExtent: Option<DatePair>,
    spatialExtent: Option<SpatialExtent>,
    creationDate: Option<Date>,
    publicationDate: Option<Date>,
    metadataDate: Option<DateTime>,
    metadataStandard: Option<string>,
    metadataStandardVersion: Option<string>,
    language: Option<string>,
    rawXml: string,
    rawXmlSize: Option<nat>)

  /** The DCAT/Turtle record; like the XML one, its parser is a parameter. */
  datatype RdfRecord = RdfRecord(
    fileIdentifier: string,
    title: Option<string>,
    abstractText: Option<string>,
    languageUri: Option<string>,
    bibliographicCitation: Option<string>,
    spatialWkt: Option<string>,
    temporalPeriod: Option<DatePair>,
    rawRdf: string,
    rawRdfSize: Option<nat>)

  // ------------------------------------------------------------ extraction

  const DocumentsBase: string := "https://catalogue.ceh.ac.uk/documents/"

  function XmlUrl(fid: string): string { DocumentsBase + fid + ".xml" }
  function JsonUrl(fid: string): string { DocumentsBase + fid + "?format=json" }
  function JsonLdUrl(fid: string): string { DocumentsBase + fid + "?format=schema.org" }
  function RdfUrl(fid: string): string { DocumentsBase + fid + "?format=ttl" }

  /** Every URL the pipeline builds passes the extractors' source check. */
  lemma UrlsAreValidSources(fid: string)
    ensures ValidateSource(XmlUrl(fid)) && ValidateSource(JsonUrl(fid))
    ensures ValidateSource(JsonLdUrl(fid)) && ValidateSource(RdfUrl(fid))
  {
    assert XmlUrl(fid)[..8] == "https://";
    assert JsonUrl(fid)[..8] == "https://";
    assert JsonLdUrl(fid)[..8] == "https://";
    assert RdfUrl(fid)[..8] == "https://";
  }

  /** The XML and RDF extractors' `validate`. */
  function ValidateXml(r: XmlRecord): (ok: bool)
    ensures ok <==> Present(r.fileIdentifier) && Present(r.title)
  {
    Present(r.fileIdentifier) && Present(r.title)
  }

  function ValidateRdf(r: RdfRecord): (ok: bool)
    ensures ok <==> r.fileIdentifier != [] && Present(r.title)
  {
    r.fileIdentifier != [] && Present(r.title)
  }

  /**
   * What the network and the foreign parsers do for one dataset: the
   * outcome of each request, the XML and Turtle parsers, `fromisoformat`
   * and which texts `float` accepts.
   */
  datatype Sources = Sources(
    xmlAttempt: nat -> Option<Payload>,
    jsonAttempt: nat -> Option<Payload>,
    jsonLdAttempt: nat -> Option<Payload>,
    rdfAttempt: nat -> Option<Payload>,
    parseXml: Payload -> Result<XmlRecord>,
    parseRdf: Payload -> Result<RdfRecord>,
    fromIso: string -> Option<DateTime>,
    isFloat: string -> bool)

  /** `_extract_*`: any ExtractionError becomes None. */
  function Swallow<T>(e: Extracted<T>): (r: Option<T>)
    ensures r.Some? <==> e.Extracted?
  {
    if e.Extracted? then Some(e.value) else None
  }

  function JsonParser(src: Sources): Payload -> Result<JsonRecord> {
    p => JsonExtractor.ParseData(p, src.fromIso)
  }

  function JsonLdParser(src: Sources): Payload -> Result<JsonLdRecord> {
    p => JsonLdExtractor.ParseData(p, src.isFloat)
  }

  function ExtractXml(fid: string, src: Sources): Option<XmlRecord> {
    Swallow(ExtractSpec(XmlUrl(fid), DefaultRetryCount, src.xmlAttempt, src.parseXml, ValidateXml))
  }

  function ExtractJson(fid: string, src: Sources): Option<JsonRecord> {
    Swallow(ExtractSpec(JsonUrl(fid), DefaultRetryCount, src.jsonAttempt, JsonParser(src), JsonExtractor.Validate))
  }

  function ExtractJsonLd(fid: string, src: Sources): Option<JsonLdRecord> {
    Swallow(ExtractSpec(JsonLdUrl(fid), DefaultRetryCount, src.jsonLdAttempt, JsonLdParser(src), JsonLdExtractor.Validate))
  }

  function ExtractRdf(fid: string, src: Sources): Option<RdfRecord> {
    Swallow(ExtractSpec(RdfUrl(fid), DefaultRetryCount, src.rdfAttempt, src.parseRdf, ValidateRdf))
  }

  /** An extracted JSON record always has a non-empty identifier and title. */
  lemma ExtractedJsonIsValid(fid: string, src: Sources)
    requires ExtractJson(fid, src).Some?
    ensures Present(ExtractJson(fid, src).value.fileIdentifier) && Present(ExtractJson(fid, src).value.title)
  {
    ExtractedIsValidated(JsonUrl(fid), DefaultRetryCount, src.jsonAttempt, JsonParser(src), JsonExtractor.Validate);
  }

  // ------------------------------------------------------------- coalesce

  /** `coalesce(*values)`: the first value that is not None. */
  function Coalesce<T(==)>(vs: seq<Option<T>>): (r: Option<T>)
    ensures r.None? <==> forall i :: 0 <= i < |vs| ==> vs[i].None?
    ensures r.Some? ==> exists i :: 0 <= i < |vs| && vs[i] == r && forall j :: 0 <= j < i ==> vs[j].None?
  {
    if vs == [] then None
    else if vs[0].Some? then vs[0]
    else
      var r := Coalesce(vs[1..]);
      assert forall i :: 1 <= i < |vs| ==> vs[i] == vs[1..][i - 1];
      if r.Some? then
        var i :| 0 <= i < |vs[1..]| && vs[1..][i] == r && forall j :: 0 <= j < i ==> vs[1..][j].None?;
        assert vs[i + 1] == r;
        r
      else r
  }

  // Coalesce over the two-, three- and four-argument calls the merge makes.
  lemma Coalesce2<T>(a: Option<T>, b: Option<T>)
    ensures Coalesce([a, b]) == if a.Some? then a else b
  {
    assert [a, b][1..] == [b];
    assert [b][1..] == [];
  }

  lemma Coalesce3<T>(a: Option<T>, b: Option<T>, c: Option<T>)
    ensures Coalesce([a, b, c]) == if a.Some? then a else if b.Some? then b else c
  {
    assert [a, b, c][1..] == [b, c];
    Coalesce2(b, c);
  }

  lemma Coalesce4<T>(a: Option<T>, b: Option<T>, c: Option<T>, d: Option<T>)
    ensures Coalesce([a, b, c, d]) == if a.Some? then a else if b.Some? then b else if c.Some? then c else d
  {
    assert [a, b, c, d][1..] == [b, c, d];
    Coalesce3(b, c, d);
  }

  // Field accessors of an optional record: `json_data.get(k) if json_data else None`.
  function JsonTitle(j: Option<JsonRecord>): Option<string> { if j.Some? then j.value.title else None }
  function JsonLdTitle(j: Option<JsonLdRecord>): Option<string> { if j.Some? then j.value.title else None }
  function XmlTitle(x: Option<XmlRecord>): Option<string> { if x.Some? then x.value.title else None }
  function RdfTitle(r: Option<RdfRecord>): Option<string> { if r.Some? then r.value.title else None }

  // ---------------------------------------------------------------- merge

  /** The `Dataset(...)` constructor call of `_merge_all_formats`. */
  function MergedCore(xml: Option<XmlRecord>, json: Option<JsonRecord>, jsonld: Option<JsonLdRecord>,
                      rdf: Option<RdfRecord>, fid: string): Dataset
  {
    var x, j, l, r := xml.Some?, json.Some?, jsonld.Some?, rdf.Some?;
    var jsonFid, xmlFid := if j then json.value.fileIdentifier else None, if x then xml.value.fileIdentifier else None;
    var fileIdentifier := Coalesce([jsonFid, xmlFid, Some(fid)]);
    Coalesce3(jsonFid, xmlFid, Some(fid));
    Dataset(
      fileIdentifier := fileIdentifier.value,
      title := Coalesce([JsonTitle(json), JsonLdTitle(jsonld), XmlTitle(xml), RdfTitle(rdf)]),
      abstractText := Coalesce([if j then json.value.abstractText else None, if l then jsonld.value.abstractText else None,
                                if x then xml.value.abstractText else None, if r then rdf.value.abstractText else None]),
      description := if j then json.value.description else None,
      lineage := Coalesce([if j then json.value.lineage else None, if x then xml.value.lineage else None]),
      publicationDate := Coalesce([if j then json.value.publicationDate else None,
                                   if x then xml.value.publicationDate else None,
                                   if l then jsonld.value.datePublished else None]),
      metadataDate := Coalesce([if j then json.value.metadataDate else None, if x then xml.value.metadataDate else None]),
      updatedDate := if j then json.value.updatedDate else None,
      metadataStandard := if x then xml.value.metadataStandard else None,
      metadataStandardVersion := if x then xml.value.metadataStandardVersion else None,
      language := Coalesce([if x then xml.value.language else None, if r then rdf.value.languageUri else None]),
      resourceStatus := if j then json.value.resourceStatus else None,
      // The XML record has no resource type, so its lookup is always None.
      resourceType := Coalesce([if j then json.value.resourceType else None, None]),
      spatialExtent := None,
      temporalExtent := None,
      creditText := Coalesce([if l then jsonld.value.creditText else None, if r then rdf.value.bibliographicCitation else None]),
      isAccessibleForFree := if l then jsonld.value.isAccessibleForFree else None,
      contacts := [],
      keywords := [],
      relationships := [],
      onlineResources := [],
      metadataDocuments := [],
      additionalMetadata := if j then json.value.additionalMetadata else None,
      purpose := None,
      creationDate := None,
      id := None)
  }

  /** The first truthy spatial extent among JSON, XML and JSON-LD. */
  function MergedSpatial(xml: Option<XmlRecord>, json: Option<JsonRecord>, jsonld: Option<JsonLdRecord>): Option<SpatialExtent> {
    if json.Some? && json.value.spatialExtent.Some? then json.value.spatialExtent
    else if xml.Some? && xml.value.spatialExtent.Some? then xml.value.spatialExtent
    else if jsonld.Some? && jsonld.value.spatialCoverage.Some? then jsonld.value.spatialCoverage
    else None
  }

  function ToTemporal(p: DatePair): TemporalExtent {
    TemporalExtent(p.start, p.end)
  }

  /** The first truthy temporal extent among JSON, XML and JSON-LD. */
  function MergedTemporal(xml: Option<XmlRecord>, json: Option<JsonRecord>, jsonld: Option<JsonLdRecord>): Option<TemporalExtent> {
    if json.Some? && json.value.temporalExtent.Some? then Some(ToTemporal(json.value.temporalExtent.value))
    else if xml.Some? && xml.value.temporalExtent.Some? then Some(ToTemporal(xml.value.temporalExtent.value))
    else if jsonld.Some? && jsonld.value.temporalCoverage.Some? then Some(ToTemporal(jsonld.value.temporalCoverage.value))
    else None
  }

  function MergedContacts(xml: Option<XmlRecord>, json: Option<JsonRecord>): seq<Contact> {
    if json.Some? && json.value.contacts != [] then json.value.contacts
    else if xml.Some? && xml.value.contacts != [] then xml.value.contacts
    else []
  }

  function MergedKeywords(xml: Option<XmlRecord>, json: Option<JsonRecord>): seq<Keyword> {
    if json.Some? && json.value.keywords != [] then json.value.keywords
    else if xml.Some? && xml.value.keywords != [] then xml.value.keywords
    else []
  }

  /**
   * `{kw['keyword']: kw.get('in_defined_term_set') for kw in ...}`: each
   * keyword text maps to the term set of its last entry.
   */
  function TermMap(kws: seq<Keyword>): map<string, Option<string>> {
    if kws == [] then map[]
    else TermMap(kws[..|kws| - 1])[kws[|kws| - 1].keyword := kws[|kws| - 1].inDefinedTermSet]
  }

  /** The map's keys are exactly the keyword texts of the entries. */
  lemma {:induction false} TermMapKeys(kws: seq<Keyword>)
    ensures forall w :: w in TermMap(kws) <==> exists j :: 0 <= j < |kws| && kws[j].keyword == w
  {
    if kws != [] {
      var init := kws[..|kws| - 1];
      TermMapKeys(init);
      assert forall j :: 0 <= j < |init| ==> init[j] == kws[j];
      forall w | w in TermMap(kws)
        ensures exists j :: 0 <= j < |kws| && kws[j].keyword == w
      {
        if w != kws[|kws| - 1].keyword {
          assert w in TermMap(init);
          var j :| 0 <= j < |init| && init[j].keyword == w;
          assert kws[j].keyword == w;
        }
      }
    }
  }

  /** A later entry overrides an earlier one: each text carries the term set of its last entry. */
  lemma {:induction false} TermMapLastWins(kws: seq<Keyword>, j: nat)
    requires j < |kws|
    requires forall k :: j < k < |kws| ==> kws[k].keyword != kws[j].keyword
    ensures kws[j].keyword in TermMap(kws)
    ensures TermMap(kws)[kws[j].keyword] == kws[j].inDefinedTermSet
  {
    if j < |kws| - 1 {
      var init := kws[..|kws| - 1];
      assert init[j] == kws[j];
      forall k | j < k < |init| ensures init[k].keyword != init[j].keyword {
        assert init[k] == kws[k];
      }
      TermMapLastWins(init, j);
    }
  }

  /** One turn of the enrichment loop. */
  function EnrichOne(kw: Keyword, terms: map<string, Option<string>>): Keyword {
    if kw.keyword in terms then kw.(inDefinedTermSet := terms[kw.keyword]) else kw
  }

  /** The enrichment loop as a value: only `in_defined_term_set` changes, and only on listed keywords. */
  function Enrich(ks: seq<Keyword>, terms: map<string, Option<string>>): (r: seq<Keyword>)
    ensures |r| == |ks|
    ensures forall i :: 0 <= i < |ks| ==> r[i].(inDefinedTermSet := ks[i].inDefinedTermSet) == ks[i]
    ensures forall i :: 0 <= i < |ks| ==> ks[i].keyword !in terms ==> r[i] == ks[i]
    ensures forall i :: 0 <= i < |ks| ==> ks[i].keyword in terms ==> r[i].inDefinedTermSet == terms[ks[i].keyword]
  {
    seq(|ks|, i requires 0 <= i < |ks| => EnrichOne(ks[i], terms))
  }

  function MergedRelationships(json: Option<JsonRecord>): seq<Relationship> {
    if json.Some? && json.value.relationships != [] then json.value.relationships else []
  }

  function MergedResources(json: Option<JsonRecord>): seq<OnlineResource> {
    if json.Some? && json.value.onlineResources != [] then json.value.onlineResources else []
  }

  predicate KeepXml(xml: Option<XmlRecord>) { xml.Some? && xml.value.rawXml != [] }
  predicate KeepJson(json: Option<JsonRecord>) { json.Some? && json.value.rawJson != [] }
  predicate KeepJsonLd(jsonld: Option<JsonLdRecord>) { jsonld.Some? && jsonld.value.rawJsonld != [] }
  predicate KeepRdf(rdf: Option<RdfRecord>) { rdf.Some? && rdf.value.rawRdf != [] }

  // The document each format contributes, when its raw text is non-empty.
  function XmlDoc(xml: Option<XmlRecord>): seq<MetadataDocument> {
    if KeepXml(xml) then [MetadataDocument("xml", xml.value.rawXml, xml.value.rawXmlSize.GetOr(0), None)] else []
  }
  function JsonDoc(json: Option<JsonRecord>): seq<MetadataDocument> {
    if KeepJson(json) then [MetadataDocument("json", json.value.rawJson, json.value.rawJsonSize, None)] else []
  }
  function JsonLdDoc(jsonld: Option<JsonLdRecord>): seq<MetadataDocument> {
    if KeepJsonLd(jsonld) then [MetadataDocument("jsonld", jsonld.value.rawJsonld, jsonld.value.rawJsonldSize, None)] else []
  }
  function RdfDoc(rdf: Option<RdfRecord>): seq<MetadataDocument> {
    if KeepRdf(rdf) then [MetadataDocument("rdf", rdf.value.rawRdf, rdf.value.rawRdfSize.GetOr(0), None)] else []
  }

  /** The raw documents, in the order xml, json, jsonld, rdf. */
  function Documents(xml: Option<XmlRecord>, json: Option<JsonRecord>, jsonld: Option<JsonLdRecord>,
                     rdf: Option<RdfRecord>): seq<MetadataDocument>
  {
    XmlDoc(xml) + JsonDoc(json) + JsonLdDoc(jsonld) + RdfDoc(rdf)
  }

  /** `_merge_all_formats` as a value. */
  function Merged(xml: Option<XmlRecord>, json: Option<JsonRecord>, jsonld: Option<JsonLdRecord>,
                  rdf: Option<RdfRecord>, fid: string): Dataset
  {
    var keywords := MergedKeywords(xml, json);
    MergedCore(xml, json, jsonld, rdf, fid).(
      spatialExtent := MergedSpatial(xml, json, jsonld),
      temporalExtent := MergedTemporal(xml, json, jsonld),
      contacts := MergedContacts(xml, json),
      keywords := if jsonld.Some? && jsonld.value.keywordsWithTermSets != []
                  then Enrich(keywords, TermMap(jsonld.value.keywordsWithTermSets)) else keywords,
      relationships := MergedRelationships(json),
      onlineResources := MergedResources(json),
      metadataDocuments := Documents(xml, json, jsonld, rdf))
  }

  /**
   * `_merge_all_formats`: builds the dataset from the scalar fields, then
   * picks the extents and collections, enriches the keywords in place and
   * appends the raw documents.
   */
  method MergeAllFormats(xml: Option<XmlRecord>, json: Option<JsonRecord>, jsonld: Option<JsonLdRecord>,
                         rdf: Option<RdfRecord>, fid: string) returns (dataset: Dataset)
    ensures dataset == Merged(xml, json, jsonld, rdf, fid)
  {
    dataset := MergedCore(xml, json, jsonld, rdf, fid);
    var spatial, temporal := SelectExtents(xml, json, jsonld);
    var contacts, keywords := SelectContactsAndKeywords(xml, json);
    if jsonld.Some? && jsonld.value.keywordsWithTermSets != [] {
      keywords := EnrichKeywords(keywords, TermMap(jsonld.value.keywordsWithTermSets));
    }
    var relationships, resources := [], [];
    if json.Some? && json.value.relationships != [] {
      relationships := json.value.relationships;
    }
    if json.Some? && json.value.onlineResources != [] {
      resources := json.value.onlineResources;
    }
    var documents := CollectDocuments(xml, json, jsonld, rdf);
    dataset := dataset.(spatialExtent := spatial, temporalExtent := temporal, contacts := contacts, keywords := keywords,
                        relationships := relationships, onlineResources := resources, metadataDocuments := documents);
  }

  /** The spatial and temporal steps of the merge: the first extent found in JSON, XML, JSON-LD. */
  method SelectExtents(xml: Option<XmlRecord>, json: Option<JsonRecord>, jsonld: Option<JsonLdRecord>)
    returns (spatial: Option<SpatialExtent>, temporal: Option<TemporalExtent>)
    ensures spatial == MergedSpatial(xml, json, jsonld) && temporal == MergedTemporal(xml, json, jsonld)
  {
    var box: Option<SpatialExtent> := None;
    if json.Some? && json.value.spatialExtent.Some? {
      box := json.value.spatialExtent;
    } else if xml.Some? && xml.value.spatialExtent.Some? {
      box := xml.value.spatialExtent;
    } else if jsonld.Some? && jsonld.value.spatialCoverage.Some? {
      box := jsonld.value.spatialCoverage;
    }
    spatial := None;
    if box.Some? {
      var s := box.value;
      spatial := Some(SpatialExtent(s.west, s.east, s.south, s.north));
    }

    var period: Option<DatePair> := None;
    if json.Some? && json.value.temporalExtent.Some? {
      period := json.value.temporalExtent;
    } else if xml.Some? && xml.value.temporalExtent.Some? {
      period := xml.value.temporalExtent;
    } else if jsonld.Some? && jsonld.value.temporalCoverage.Some? {
      period := jsonld.value.temporalCoverage;
    }
    temporal := None;
    if period.Some? {
      temporal := Some(TemporalExtent(period.value.start, period.value.end));
    }
  }

  /** The contacts and keywords steps: JSON's list when non-empty, else XML's. */
  method SelectContactsAndKeywords(xml: Option<XmlRecord>, json: Option<JsonRecord>)
    returns (contacts: seq<Contact>, keywords: seq<Keyword>)
    ensures contacts == MergedContacts(xml, json) && keywords == MergedKeywords(xml, json)
  {
    contacts, keywords := [], [];
    if json.Some? && json.value.contacts != [] {
      contacts := json.value.contacts;
    } else if xml.Some? && xml.value.contacts != [] {
      contacts := xml.value.contacts;
    }
    if json.Some? && json.value.keywords != [] {
      keywords := json.value.keywords;
    } else if xml.Some? && xml.value.keywords != [] {
      keywords := xml.value.keywords;
    }
  }

  /** The enrichment loop: sets `in_defined_term_set` on each keyword whose text is in the map. */
  method EnrichKeywords(ks: seq<Keyword>, terms: map<string, Option<string>>) returns (keywords: seq<Keyword>)
    ensures keywords == Enrich(ks, terms)
  {
    keywords := ks;
    var i := 0;
    while i < |keywords|
      invariant i <= |keywords| && |keywords| == |ks|
      invariant forall k :: 0 <= k < i ==> keywords[k] == EnrichOne(ks[k], terms)
      invariant forall k :: i <= k < |keywords| ==> keywords[k] == ks[k]
    {
      if keywords[i].keyword in terms {
        keywords := keywords[i := keywords[i].(inDefinedTermSet := terms[keywords[i].keyword])];
      }
      i := i + 1;
    }
  }

  /** The four `metadata_documents.append` steps. */
  method CollectDocuments(xml: Option<XmlRecord>, json: Option<JsonRecord>, jsonld: Option<JsonLdRecord>,
                          rdf: Option<RdfRecord>) returns (docs: seq<MetadataDocument>)
    ensures docs == Documents(xml, json, jsonld, rdf)
  {
    docs := [];
    if xml.Some? && xml.value.rawXml != [] {
      docs := docs + [MetadataDocument("xml", xml.value.rawXml, xml.value.rawXmlSize.GetOr(0), None)];
    }
    assert docs == XmlDoc(xml);
    if json.Some? && json.value.rawJson != [] {
      docs := docs + [MetadataDocument("json", json.value.rawJson, json.value.rawJsonSize, None)];
    }
    assert docs == XmlDoc(xml) + JsonDoc(json);
    if jsonld.Some? && jsonld.value.rawJsonld != [] {
      docs := docs + [MetadataDocument("jsonld", jsonld.value.rawJsonld, jsonld.value.rawJsonldSize, None)];
    }
    assert docs == XmlDoc(xml) + JsonDoc(json) + JsonLdDoc(jsonld);
    if rdf.Some? && rdf.value.rawRdf != [] {
      docs := docs + [MetadataDocument("rdf", rdf.value.rawRdf, rdf.value.rawRdfSize.GetOr(0), None)];
    }
  }

  // ------------------------------------------------------- merge properties

  /**
   * Title: a title from a higher-priority source wins whatever the lower
   * ones hold, in the order JSON, JSON-LD, XML, RDF.
   */
  lemma TitlePriority(xml: Option<XmlRecord>, json: Option<JsonRecord>, jsonld: Option<JsonLdRecord>,
                      rdf: Option<RdfRecord>, fid: string)
    ensures JsonTitle(json).Some? ==> Merged(xml, json, jsonld, rdf, fid).title == JsonTitle(json)
    ensures JsonTitle(json).None? && JsonLdTitle(jsonld).Some? ==>
      Merged(xml, json, jsonld, rdf, fid).title == JsonLdTitle(jsonld)
    ensures JsonTitle(json).None? && JsonLdTitle(jsonld).None? && XmlTitle(xml).Some? ==>
      Merged(xml, json, jsonld, rdf, fid).title == XmlTitle(xml)
    ensures JsonTitle(json).None? && JsonLdTitle(jsonld).None? && XmlTitle(xml).None? ==>
      Merged(xml, json, jsonld, rdf, fid).title == RdfTitle(rdf)
  {
    Coalesce4(JsonTitle(json), JsonLdTitle(jsonld), XmlTitle(xml), RdfTitle(rdf));
  }

  /** The file identifier is JSON's, else XML's, else the argument; never None. */
  lemma FileIdentifierPriority(xml: Option<XmlRecord>, json: Option<JsonRecord>, jsonld: Option<JsonLdRecord>,
                               rdf: Option<RdfRecord>, fid: string)
    ensures var m := Merged(xml, json, jsonld, rdf, fid).fileIdentifier;
      if json.Some? && json.value.fileIdentifier.Some? then m == json.value.fileIdentifier.value
      else if xml.Some? && xml.value.fileIdentifier.Some? then m == xml.value.fileIdentifier.value
      else m == fid
  {
    Coalesce3(if json.Some? then json.value.fileIdentifier else None,
              if xml.Some? then xml.value.fileIdentifier else None, Some(fid));
  }

  /** The RDF record never influences the extents. */
  lemma ExtentsIgnoreRdf(xml: Option<XmlRecord>, json: Option<JsonRecord>, jsonld: Option<JsonLdRecord>,
                         rdf1: Option<RdfRecord>, rdf2: Option<RdfRecord>, fid: string)
    ensures Merged(xml, json, jsonld, rdf1, fid).spatialExtent == Merged(xml, json, jsonld, rdf2, fid).spatialExtent
    ensures Merged(xml, json, jsonld, rdf1, fid).temporalExtent == Merged(xml, json, jsonld, rdf2, fid).temporalExtent
  {
  }

  /** Contacts and keywords are one source's list, whole: JSON's when non-empty, else XML's. */
  lemma CollectionsNeverUnioned(xml: Option<XmlRecord>, json: Option<JsonRecord>, jsonld: Option<JsonLdRecord>,
                                rdf: Option<RdfRecord>, fid: string)
    requires jsonld.None? || jsonld.value.keywordsWithTermSets == []
    ensures var m := Merged(xml, json, jsonld, rdf, fid);
      (json.Some? && json.value.contacts != [] ==> m.contacts == json.value.contacts)
      && (!(json.Some? && json.value.contacts != []) && xml.Some? ==> m.contacts == xml.value.contacts)
      && (json.Some? && json.value.keywords != [] ==> m.keywords == json.value.keywords)
      && (!(json.Some? && json.value.keywords != []) && xml.Some? ==> m.keywords == xml.value.keywords)
  {
  }

  /** A record produced by the JSON-LD extractor never enriches keywords. */
  lemma JsonLdOutputNeverEnriches(p: Payload, isFloat: string -> bool, xml: Option<XmlRecord>,
                                  json: Option<JsonRecord>, rdf: Option<RdfRecord>, fid: string)
    requires JsonLdExtractor.ParseData(p, isFloat).Ok?
    ensures Merged(xml, json, Some(JsonLdExtractor.ParseData(p, isFloat).value), rdf, fid).keywords
         == MergedKeywords(xml, json)
  {
  }

  /** Enrichment keeps the keywords' count, order and text. */
  lemma EnrichmentKeepsKeywords(xml: Option<XmlRecord>, json: Option<JsonRecord>, jsonld: Option<JsonLdRecord>,
                                rdf: Option<RdfRecord>, fid: string)
    ensures var m := Merged(xml, json, jsonld, rdf, fid).keywords;
      var k := MergedKeywords(xml, json);
      |m| == |k| && forall i :: 0 <= i < |k| ==> m[i].keyword == k[i].keyword && m[i].keywordType == k[i].keywordType
  {
  }

  function Formats(docs: seq<MetadataDocument>): (fs: seq<string>)
    ensures |fs| == |docs| && forall i :: 0 <= i < |docs| ==> fs[i] == docs[i].format
  {
    seq(|docs|, i requires 0 <= i < |docs| => docs[i].format)
  }

  lemma FormatsAppend(a: seq<MetadataDocument>, b: seq<MetadataDocument>)
    ensures Formats(a + b) == Formats(a) + Formats(b)
  {
  }

  /**
   * One document per format at most, in the order xml, json, jsonld, rdf,
   * a format present exactly when its raw text is non-empty.
   */
  lemma DocumentsOrderedByFormat(xml: Option<XmlRecord>, json: Option<JsonRecord>, jsonld: Option<JsonLdRecord>,
                                 rdf: Option<RdfRecord>, fid: string)
    ensures Formats(Merged(xml, json, jsonld, rdf, fid).metadataDocuments)
         == (if KeepXml(xml) then ["xml"] else []) + (if KeepJson(json) then ["json"] else [])
          + (if KeepJsonLd(jsonld) then ["jsonld"] else []) + (if KeepRdf(rdf) then ["rdf"] else [])
    ensures |Merged(xml, json, jsonld, rdf, fid).metadataDocuments| <= 4
  {
    var a, b, c, e := XmlDoc(xml), JsonDoc(json), JsonLdDoc(jsonld), RdfDoc(rdf);
    assert Merged(xml, json, jsonld, rdf, fid).metadataDocuments == a + b + c + e;
    FormatsAppend(a, b);
    FormatsAppend(a + b, c);
    FormatsAppend(a + b + c, e);
    assert Formats(a) == if KeepXml(xml) then ["xml"] else [];
    assert Formats(b) == if KeepJson(json) then ["json"] else [];
    assert Formats(c) == if KeepJsonLd(jsonld) then ["jsonld"] else [];
    assert Formats(e) == if KeepRdf(rdf) then ["rdf"] else [];
  }

  /** Each kept document carries its source's raw text unchanged. */
  lemma DocumentsCarryRawText(xml: Option<XmlRecord>, json: Option<JsonRecord>, jsonld: Option<JsonLdRecord>,
                              rdf: Option<RdfRecord>, fid: string)
    ensures KeepXml(xml) ==>
      Merged(xml, json, jsonld, rdf, fid).metadataDocuments[0]
        == MetadataDocument("xml", xml.value.rawXml, xml.value.rawXmlSize.GetOr(0), None)
    ensures KeepRdf(rdf) ==> var docs := Merged(xml, json, jsonld, rdf, fid).metadataDocuments;
      docs[|docs| - 1] == MetadataDocument("rdf", rdf.value.rawRdf, rdf.value.rawRdfSize.GetOr(0), None)
  {
  }

  /** The XML purpose and creation date are never carried into the merged dataset. */
  lemma MergeDropsPurposeAndCreationDate(xml: Option<XmlRecord>, json: Option<JsonRecord>, jsonld: Option<JsonLdRecord>,
                                         rdf: Option<RdfRecord>, fid: string)
    ensures Merged(xml, json, jsonld, rdf, fid).purpose.None?
    ensures Merged(xml, json, jsonld, rdf, fid).creationDate.None?
    ensures Merged(xml, json, jsonld, rdf, fid).id.None?
  {
  }

  /**
   * What `process_dataset` returns for one identifier, whatever the session
   * holds: None when no format was extracted, and a dataset only as the
   * merge of the four extractions under the id it was stored with.
   */
  predicate ProcessOutcome(fid: string, src: Sources, freshId: string, r: Option<Dataset>) {
    var xml, json, jsonld, rdf := ExtractXml(fid, src), ExtractJson(fid, src), ExtractJsonLd(fid, src), ExtractRdf(fid, src);
    (xml.None? && json.None? && jsonld.None? && rdf.None? ==> r.None?)
    && (r.Some? ==> var d := Merged(xml, json, jsonld, rdf, fid); r.value == d.(id := Some(DatasetIdOf(d, freshId))))
  }

  /**
   * When `process_dataset` commits: something was extracted, the stored id
   * is not yet taken, no earlier add clashed, and the table with the new
   * row meets the schema.
   */
  predicate ProcessSucceeds(fid: string, src: Sources, freshId: string, s: SessionState) {
    var xml, json, jsonld, rdf := ExtractXml(fid, src), ExtractJson(fid, src), ExtractJsonLd(fid, src), ExtractRdf(fid, src);
    var d := Merged(xml, json, jsonld, rdf, fid);
    var id := DatasetIdOf(d, freshId);
    (xml.Some? || json.Some? || jsonld.Some? || rdf.Some?)
    && id !in s.rows && !s.clash && TableConstraints(s.rows[id := RowOf(d, id)])
  }

  /**
   * One call of `process_dataset` on a session state: what it returns and
   * the session afterwards. With nothing extracted nothing changes; a
   * commit makes the new table both pending and committed; a failed commit
   * is rolled back to the last commit.
   */
  function ProcessStep(fid: string, src: Sources, freshId: string, s: SessionState): (r: (Option<Dataset>, SessionState))
    ensures ProcessOutcome(fid, src, freshId, r.0)
    ensures r.0.Some? <==> ProcessSucceeds(fid, src, freshId, s)
    ensures TableConstraints(s.committed) ==> TableConstraints(r.1.committed)
    ensures r.1.committed == s.committed || r.0.Some?
  {
    var xml, json, jsonld, rdf := ExtractXml(fid, src), ExtractJson(fid, src), ExtractJsonLd(fid, src), ExtractRdf(fid, src);
    if xml.None? && json.None? && jsonld.None? && rdf.None? then (None, s)
    else
      var d := Merged(xml, json, jsonld, rdf, fid);
      var id := DatasetIdOf(d, freshId);
      if ProcessSucceeds(fid, src, freshId, s) then
        var t := s.rows[id := RowOf(d, id)];
        (Some(d.(id := Some(id))), SessionState(t, t, false))
      else
        (None, SessionState(s.committed, s.committed, false))
  }

  /**
   * An `isAccessibleForFree` the `Boolean` column refuses makes the commit
   * fail: whatever the session holds, `process_dataset` returns None.
   */
  lemma RefusedFlagFails(fid: string, src: Sources, freshId: string, s: SessionState)
    requires ExtractJsonLd(fid, src).Some? && ExtractJsonLd(fid, src).value.isAccessibleForFree == Some(Refused)
    ensures !ProcessSucceeds(fid, src, freshId, s)
    ensures ProcessStep(fid, src, freshId, s).0 == None
  {
    var xml, json, jsonld, rdf := ExtractXml(fid, src), ExtractJson(fid, src), ExtractJsonLd(fid, src), ExtractRdf(fid, src);
    var d := Merged(xml, json, jsonld, rdf, fid);
    MergedFlag(xml, json, jsonld, rdf, fid);
    RefusedFlagRow(d, DatasetIdOf(d, freshId), s.rows);
  }

  /** A row whose flag is refused breaks the table it is added to. */
  lemma RefusedFlagRow(d: Dataset, id: string, rows: map<string, DatasetRow>)
    requires d.isAccessibleForFree == Some(Refused)
    ensures !TableConstraints(rows[id := RowOf(d, id)])
  {
    var t := rows[id := RowOf(d, id)];
    assert id in t && !RowConstraints(t[id]);
  }

  /** The merged `is_accessible_for_free` is the JSON-LD record's. */
  lemma MergedFlag(xml: Option<XmlRecord>, json: Option<JsonRecord>, jsonld: Option<JsonLdRecord>,
                   rdf: Option<RdfRecord>, fid: string)
    ensures Merged(xml, json, jsonld, rdf, fid).isAccessibleForFree
         == if jsonld.Some? then jsonld.value.isAccessibleForFree else None
  {
  }

  // --------------------------------------------------------- the pipeline

  /** `ETLPipeline`: a session and the repository that writes through it. */
  class EtlPipeline {
    const session: Session
    const repository: Repository

    ghost predicate Valid()
      reads this, session
    {
      repository.session == session && session.Valid()
    }

    constructor (session: Session)
      requires session.Valid()
      ensures Valid() && this.session == session
    {
      this.session := session;
      repository := new Repository(session);
    }

    /**
     * `process_dataset`: extract in all four formats; with nothing
     * extracted, return None and touch nothing; otherwise merge, add and
     * commit. A commit that fails is rolled back and gives None.
     */
    method ProcessDataset(fid: string, src: Sources, freshId: string) returns (r: Option<Dataset>)
      requires Valid()
      modifies session
      ensures Valid()
      ensures var xml, json, jsonld, rdf := ExtractXml(fid, src), ExtractJson(fid, src), ExtractJsonLd(fid, src), ExtractRdf(fid, src);
        xml.None? && json.None? && jsonld.None? && rdf.None? ==>
          r.None? && session.rows == old(session.rows) && session.committed == old(session.committed)
          && session.clash == old(session.clash)
      ensures r.Some? ==>
        var xml, json, jsonld, rdf := ExtractXml(fid, src), ExtractJson(fid, src), ExtractJsonLd(fid, src), ExtractRdf(fid, src);
        var d := Merged(xml, json, jsonld, rdf, fid);
        var id := DatasetIdOf(d, freshId);
        r.value == d.(id := Some(id)) && id !in old(session.rows)
        && session.committed == old(session.rows)[id := RowOf(d, id)]
        && session.rows == session.committed && !session.clash
      ensures ProcessOutcome(fid, src, freshId, r)
      ensures (r, session.State()) == ProcessStep(fid, src, freshId, old(session.State()))
      ensures var xml, json, jsonld, rdf := ExtractXml(fid, src), ExtractJson(fid, src), ExtractJsonLd(fid, src), ExtractRdf(fid, src);
        var d := Merged(xml, json, jsonld, rdf, fid);
        var id := DatasetIdOf(d, freshId);
        r.Some? <==> (xml.Some? || json.Some? || jsonld.Some? || rdf.Some?)
                     && id !in old(session.rows) && !old(session.clash)
                     && TableConstraints(old(session.rows)[id := RowOf(d, id)])
      ensures r.None? ==> session.committed == old(session.committed)
      ensures r.None? ==> session.rows == old(session.rows) || session.rows == old(session.committed)
    {
      var xml, json, jsonld, rdf := ExtractAll(fid, src);
      if xml.None? && json.None? && jsonld.None? && rdf.None? {
        return None;
      }
      var dataset := MergeAllFormats(xml, json, jsonld, rdf, fid);
      r := Save(dataset, freshId);
    }

    /** The four extractions, each failure swallowed to None. */
    static method ExtractAll(fid: string, src: Sources)
      returns (xml: Option<XmlRecord>, json: Option<JsonRecord>, jsonld: Option<JsonLdRecord>, rdf: Option<RdfRecord>)
      ensures xml == ExtractXml(fid, src) && json == ExtractJson(fid, src)
      ensures jsonld == ExtractJsonLd(fid, src) && rdf == ExtractRdf(fid, src)
    {
      var x, n1 := Extract(XmlUrl(fid), DefaultRetryCount, src.xmlAttempt, src.parseXml, ValidateXml);
      var j, n2 := Extract(JsonUrl(fid), DefaultRetryCount, src.jsonAttempt, JsonParser(src), JsonExtractor.Validate);
      var l, n3 := Extract(JsonLdUrl(fid), DefaultRetryCount, src.jsonLdAttempt, JsonLdParser(src), JsonLdExtractor.Validate);
      var r, n4 := Extract(RdfUrl(fid), DefaultRetryCount, src.rdfAttempt, src.parseRdf, ValidateRdf);
      xml, json, jsonld, rdf := Swallow(x), Swallow(j), Swallow(l), Swallow(r);
    }

    /** Add the merged dataset and commit; a commit that fails is rolled back and gives None. */
    method Save(d: Dataset, freshId: string) returns (r: Option<Dataset>)
      requires Valid()
      modifies session
      ensures Valid()
      ensures r.Some? ==>
        var id := DatasetIdOf(d, freshId);
        r.value == d.(id := Some(id)) && id !in old(session.rows)
        && session.committed == old(session.rows)[id := RowOf(d, id)]
        && session.rows == session.committed && !session.clash
      ensures var id := DatasetIdOf(d, freshId);
        r.Some? <==> id !in old(session.rows) && !old(session.clash) && TableConstraints(old(session.rows)[id := RowOf(d, id)])
      ensures r.None? ==> session.committed == old(session.committed) && session.rows == old(session.committed) && !session.clash
    {
      var stored := repository.Add(d, freshId);
      var ok := session.Commit();
      if !ok {
        session.Rollback();
        return None;
      }
      return Some(stored);
    }
  }
}
