// backend/etl/extractors/jsonld_extractor.py: reads the Schema.org JSON-LD
// document. The dataset node is looked up in `@graph`; its spatial
// coverage is found by following `@id` links through the same graph.

module JsonLdExtractor {
  import opened Common
  import opened Strings
  import opened JsonValue
  import opened EtlDateUtils
  import opened DatasetModel
  import opened BaseExtractor

  /**
   * The dictionary `_parse_data` returns. `keywordsWithTermSets` is the
   * key the merge looks for when enriching keywords; this extractor never
   * produces it, so it is always empty here.
   */
  datatype JsonLdRecord = JsonLdRecord(
    fileIdentifier: string,
    title: Option<string>,
    abstractText: Option<string>,
    creditText: Option<string>,
    isAccessibleForFree: Option<BooleanBind>,
    datePublished: Option<Date>,
    creatorOrcids: seq<Json>,
    spatialCoverage: Option<SpatialExtent>,
    temporalCoverage: Option<DatePair>,
    license: Option<string>,
    publisherUri: Option<string>,
    keywordsWithTermSets: seq<Keyword>,
    rawJsonld: string,
    rawJsonldSize: nat)

  /** `d.get(k)` compared with `==`: a JSON null and a missing key both read as None. */
  function PyGet(m: map<string, Json>, k: string): Option<Json> {
    if k in m && m[k] != JNull then Some(m[k]) else None
  }

  /** `item.get('@type') == 'Dataset'`. */
  predicate IsDatasetNode(item: Json) {
    item.JObj? && "@type" in item.fields && item.fields["@type"] == JStr("Dataset")
  }

  // ------------------------------------------------------- dataset lookup

  /**
   * The first `@graph` item from position `i` on whose `@type` is
   * `Dataset`. An item that is not an object raises before a later one is
   * examined.
   */
  function FindFrom(graph: seq<Json>, i: nat): (r: Result<Option<map<string, Json>>>)
    requires i <= |graph|
    ensures r.Ok? && r.value.Some? ==>
      exists j :: i <= j < |graph| && graph[j] == JObj(r.value.value) && IsDatasetNode(graph[j])
        && forall k :: i <= k < j ==> graph[k].JObj? && !IsDatasetNode(graph[k])
    ensures r == Ok(None) <==> forall k :: i <= k < |graph| ==> graph[k].JObj? && !IsDatasetNode(graph[k])
    ensures r.Failed? <==> exists j :: i <= j < |graph| && !graph[j].JObj?
                                     && forall k :: i <= k < j ==> graph[k].JObj? && !IsDatasetNode(graph[k])
    decreases |graph| - i
  {
    if i == |graph| then Ok(None)
    else if !graph[i].JObj? then Failed(Raised)
    else if IsDatasetNode(graph[i]) then Ok(Some(graph[i].fields))
    else
      FindFromSkips(graph, i);
      FindFrom(graph, i + 1)
  }

  /** Past an object that is not a Dataset node, a blocking non-object is one found from the next position. */
  lemma FindFromSkips(graph: seq<Json>, i: nat)
    requires i < |graph| && graph[i].JObj? && !IsDatasetNode(graph[i])
    ensures (exists j :: i <= j < |graph| && !graph[j].JObj? && forall k :: i <= k < j ==> graph[k].JObj? && !IsDatasetNode(graph[k]))
        <==> (exists j :: i + 1 <= j < |graph| && !graph[j].JObj? && forall k :: i + 1 <= k < j ==> graph[k].JObj? && !IsDatasetNode(graph[k]))
  {
  }

  /** The search loop of `_parse_data`, which stops at the first Dataset node. */
  method FindDataset(graph: seq<Json>) returns (r: Result<Option<map<string, Json>>>)
    ensures r == FindFrom(graph, 0)
  {
    var i := 0;
    while i < |graph|
      invariant i <= |graph|
      invariant FindFrom(graph, 0) == FindFrom(graph, i)
    {
      var item := graph[i];
      if !item.JObj? {
        return Failed(Raised);
      }
      if "@type" in item.fields && item.fields["@type"] == JStr("Dataset") {
        return Ok(Some(item.fields));
      }
      i := i + 1;
    }
    return Ok(None);
  }

  // ------------------------------------------------------ file identifier

  /** `dataset.get('@id', '').split('/')[-1]`. */
  function FileIdentifierOf(ds: map<string, Json>): (r: Result<string>)
    ensures "@id" !in ds ==> r == Ok([])
    ensures r.Ok? <==> LookupOr(ds, "@id", JStr([])).JStr?
    ensures r.Ok? ==> '/' !in r.value
    ensures r.Ok? ==> var id := LookupOr(ds, "@id", JStr([])).s;
      |r.value| <= |id| && r.value == id[|id| - |r.value|..] && ('/' !in id ==> r.value == id)
      && ('/' in id ==> |r.value| < |id| && id[|id| - |r.value| - 1] == '/')
  {
    var id := LookupOr(ds, "@id", JStr([]));
    if !id.JStr? then Failed(Raised) else Ok(AfterLast(id.s, '/'))
  }

  // -------------------------------------------------------------- creators

  /** One turn of the `creator_orcids` comprehension. */
  function CreatorIdOf(creator: Json): Result<Option<Json>> {
    if creator.JObj? && "@id" in creator.fields then Ok(Some(creator.fields["@id"])) else Ok(None)
  }

  /**
   * `creator_orcids`. Iterating an object yields its keys, which are texts
   * and never dicts, so an object creator lists no id whatever its key
   * order; a string yields characters, likewise dropped. Only null,
   * booleans and numbers raise.
   */
  function CreatorIds(ds: map<string, Json>): (r: Result<seq<Json>>)
    ensures var c := LookupOr(ds, "creator", JArr([]));
      (c.JObj? || c.JStr? ==> r == Ok([]))
      && (r.Failed? <==> c.JNull? || c.JBool? || c.JNum?)
  {
    var c := LookupOr(ds, "creator", JArr([]));
    if c.JObj? then Ok([])
    else
      var creators := Iter(c);
      if creators.Failed? then Failed(creators.reason)
      else
        CollectFails(creators.value, CreatorIdOf);
        if c.JStr? then NoObjectsNoIds(creators.value); Collect(creators.value, CreatorIdOf)
        else Collect(creators.value, CreatorIdOf)
  }

  /** Creators none of which is an object list no id. */
  lemma NoObjectsNoIds(xs: seq<Json>)
    requires forall j :: 0 <= j < |xs| ==> !xs[j].JObj?
    ensures Collect(xs, CreatorIdOf) == Ok([])
  {
    CollectFails(xs, CreatorIdOf);
    var r := Collect(xs, CreatorIdOf);
    if |r.value| > 0 {
      CollectSound(xs, CreatorIdOf, 0);
    }
  }

  /** Every listed id is the `@id` of a creator that is an object, and nothing else raises. */
  lemma CreatorIdsFromObjects(ds: map<string, Json>, k: nat)
    requires Iter(LookupOr(ds, "creator", JArr([]))).Ok?
    ensures CreatorIds(ds).Ok?
    ensures k < |CreatorIds(ds).value| ==>
      var creators := Iter(LookupOr(ds, "creator", JArr([]))).value;
      exists j :: 0 <= j < |creators| && creators[j].JObj? && "@id" in creators[j].fields
        && creators[j].fields["@id"] == CreatorIds(ds).value[k]
  {
    var creators := Iter(LookupOr(ds, "creator", JArr([]))).value;
    CollectFails(creators, CreatorIdOf);
    if k < |CreatorIds(ds).value| {
      CollectSound(creators, CreatorIdOf, k);
    }
  }

  // -------------------------------------------------------------- temporal

  /**
   * `_extract_temporal`: only the first coverage entry is read, and only
   * when it is a text containing `/`; start and end are its first two
   * `/`-separated segments.
   */
  function TemporalText(ds: map<string, Json>): (r: Result<Option<TextPair>>)
    ensures r.Ok? && r.value.Some? ==>
      var t := LookupOr(ds, "temporalCoverage", JArr([]));
      Truthy(t) && First(t).Ok? && First(t).value.JStr? && '/' in First(t).value.s
      && r.value.value == TextPair(Some(Before(First(t).value.s, '/')), Some(Split(First(t).value.s, '/')[1]))
    ensures !Truthy(LookupOr(ds, "temporalCoverage", JArr([]))) ==> r == Ok(None)
  {
    var t := LookupOr(ds, "temporalCoverage", JArr([]));
    if !Truthy(t) then Ok(None)
    else
      var first := First(t);
      if first.Failed? then Failed(Raised)
      else match first.value
        case JStr(s) =>
          if '/' in s then
            var parts := Split(s, '/');
            Ok(Some(TextPair(Some(parts[0]), Some(parts[1]))))
          else Ok(None)
        case JArr(a) => if JStr("/") in a then Failed(Raised) else Ok(None)
        case JObj(m) => if "/" in m then Failed(Raised) else Ok(None)
        case _ => Failed(Raised)
  }

  /** Later temporal coverage entries are never read. */
  lemma TemporalUsesFirstEntry(ds: map<string, Json>, first: Json, rest1: seq<Json>, rest2: seq<Json>)
    ensures TemporalText(ds["temporalCoverage" := JArr([first] + rest1)])
         == TemporalText(ds["temporalCoverage" := JArr([first] + rest2)])
  {
  }

  /** A first entry without `/` gives no temporal coverage. */
  lemma TemporalNeedsSlash(ds: map<string, Json>, s: string, rest: seq<Json>)
    requires '/' !in s
    ensures TemporalText(ds["temporalCoverage" := JArr([JStr(s)] + rest)]) == Ok(None)
  {
  }

  // --------------------------------------------------------------- spatial

  /**
   * The `try` block of `_extract_spatial`: "west south, east north". Any
   * exception in it (no comma, fewer than two numbers on a side, a token
   * `float` rejects, a box that is not a text) is swallowed and gives None.
   * `isFloat` says which tokens `float()` accepts.
   */
  function ParseBox(box: Json, isFloat: string -> bool): (r: Option<SpatialExtent>)
    ensures r.Some? ==> box.JStr? && ',' in box.s
    ensures r.Some? ==> r.value.west.Some? && r.value.east.Some? && r.value.south.Some? && r.value.north.Some?
    ensures r.Some? ==> isFloat(r.value.west.value) && isFloat(r.value.south.value)
                        && isFloat(r.value.east.value) && isFloat(r.value.north.value)
  {
    if !box.JStr? then None
    else
      var parts := Split(box.s, ',');
      if |parts| < 2 then None
      else
        var westSouth := SplitWs(Strip(parts[0]));
        var eastNorth := SplitWs(Strip(parts[1]));
        if |westSouth| < 2 || |eastNorth| < 2 then None
        else if !(isFloat(westSouth[0]) && isFloat(westSouth[1]) && isFloat(eastNorth[0]) && isFloat(eastNorth[1])) then None
        else Some(SpatialExtent(west := Some(westSouth[0]), east := Some(eastNorth[0]),
                                south := Some(westSouth[1]), north := Some(eastNorth[1])))
  }

  /**
   * The inner loop: from position `j`, the first graph item whose `@id`
   * equals `geoRef` and whose `box` parses. A missing `geo` id is None,
   * which items without an `@id` also have.
   */
  function BoxFrom(graph: seq<Json>, j: nat, geoRef: Option<Json>, isFloat: string -> bool): (r: Result<Option<SpatialExtent>>)
    requires j <= |graph|
    decreases |graph| - j
  {
    if j == |graph| then Ok(None)
    else if !graph[j].JObj? then Failed(Raised)
    else if PyGet(graph[j].fields, "@id") != geoRef then BoxFrom(graph, j + 1, geoRef, isFloat)
    else
      var box := LookupOr(graph[j].fields, "box", JStr([]));
      var parsed := if Truthy(box) then ParseBox(box, isFloat) else None;
      if parsed.Some? then Ok(parsed) else BoxFrom(graph, j + 1, geoRef, isFloat)
  }

  /** The outer loop: graph items from position `i` whose `@id` is the coverage id. */
  function LinkFrom(graph: seq<Json>, i: nat, spatialId: Json, isFloat: string -> bool): (r: Result<Option<SpatialExtent>>)
    requires i <= |graph|
    decreases |graph| - i
  {
    if i == |graph| then Ok(None)
    else if !graph[i].JObj? then Failed(Raised)
    else if PyGet(graph[i].fields, "@id") != Some(spatialId) then LinkFrom(graph, i + 1, spatialId, isFloat)
    else
      var geo := LookupOr(graph[i].fields, "geo", JObj(map[]));
      if !geo.JObj? then Failed(Raised)
      else
        var found := BoxFrom(graph, 0, PyGet(geo.fields, "@id"), isFloat);
        if found.Failed? || found.value.Some? then found else LinkFrom(graph, i + 1, spatialId, isFloat)
  }

  /** `_extract_spatial` as a value. */
  function SpatialCoverage(ds: map<string, Json>, graph: seq<Json>, isFloat: string -> bool): Result<Option<SpatialExtent>> {
    var ref := LookupOr(ds, "spatialCoverage", JArr([]));
    if !Truthy(ref) then Ok(None)
    else
      var first := First(ref);
      if first.Failed? || !first.value.JObj? then Failed(Raised)
      else
        var spatialId := PyGet(first.value.fields, "@id");
        if spatialId.None? || !Truthy(spatialId.value) then Ok(None)
        else LinkFrom(graph, 0, spatialId.value, isFloat)
  }

  /** `_extract_spatial`: two nested searches through the graph, returning at the first box that parses. */
  method ExtractSpatial(ds: map<string, Json>, graph: seq<Json>, isFloat: string -> bool)
    returns (r: Result<Option<SpatialExtent>>)
    ensures r == SpatialCoverage(ds, graph, isFloat)
  {
    var ref := LookupOr(ds, "spatialCoverage", JArr([]));
    if !Truthy(ref) {
      return Ok(None);
    }
    var first := First(ref);
    if first.Failed? || !first.value.JObj? {
      return Failed(Raised);
    }
    var spatialId := PyGet(first.value.fields, "@id");
    if spatialId.None? || !Truthy(spatialId.value) {
      return Ok(None);
    }
    var i := 0;
    while i < |graph|
      invariant i <= |graph|
      invariant SpatialCoverage(ds, graph, isFloat) == LinkFrom(graph, i, spatialId.value, isFloat)
    {
      var item := graph[i];
      if !item.JObj? {
        return Failed(Raised);
      }
      if PyGet(item.fields, "@id") == spatialId {
        var geo := LookupOr(item.fields, "geo", JObj(map[]));
        if !geo.JObj? {
          return Failed(Raised);
        }
        var geoRef := PyGet(geo.fields, "@id");
        var j := 0;
        while j < |graph|
          invariant j <= |graph|
          invariant BoxFrom(graph, 0, geoRef, isFloat) == BoxFrom(graph, j, geoRef, isFloat)
        {
          var geoItem := graph[j];
          if !geoItem.JObj? {
            return Failed(Raised);
          }
          if PyGet(geoItem.fields, "@id") == geoRef {
            var box := LookupOr(geoItem.fields, "box", JStr([]));
            if Truthy(box) {
              var parsed := ParseBox(box, isFloat);
              if parsed.Some? {
                return Ok(parsed);
              }
            }
          }
          j := j + 1;
        }
      }
      i := i + 1;
    }
    return Ok(None);
  }

  /** No coverage reference, or a reference without an id, gives no spatial coverage. */
  lemma SpatialNeedsReference(ds: map<string, Json>, graph: seq<Json>, isFloat: string -> bool)
    requires !Truthy(LookupOr(ds, "spatialCoverage", JArr([])))
             || (First(LookupOr(ds, "spatialCoverage", JArr([]))).Ok?
                 && First(LookupOr(ds, "spatialCoverage", JArr([]))).value.JObj?
                 && PyGet(First(LookupOr(ds, "spatialCoverage", JArr([]))).value.fields, "@id").None?)
    ensures SpatialCoverage(ds, graph, isFloat) == Ok(None)
  {
  }

  /** When no graph object carries the coverage id, the link chain ends in None. */
  lemma {:induction false} LinkMissingGivesNone(graph: seq<Json>, i: nat, spatialId: Json, isFloat: string -> bool)
    requires i <= |graph|
    requires forall k :: i <= k < |graph| ==> graph[k].JObj? && PyGet(graph[k].fields, "@id") != Some(spatialId)
    ensures LinkFrom(graph, i, spatialId, isFloat) == Ok(None)
    decreases |graph| - i
  {
    if i < |graph| {
      LinkMissingGivesNone(graph, i + 1, spatialId, isFloat);
    }
  }

  /** When every item is an object and no box parses, the search yields None. */
  lemma {:induction false} BoxesUnparsedGiveNone(graph: seq<Json>, j: nat, geoRef: Option<Json>, isFloat: string -> bool)
    requires j <= |graph|
    requires forall k :: j <= k < |graph| ==> graph[k].JObj? && ParseBox(LookupOr(graph[k].fields, "box", JStr([])), isFloat).None?
    ensures BoxFrom(graph, j, geoRef, isFloat) == Ok(None)
    decreases |graph| - j
  {
    if j < |graph| {
      BoxesUnparsedGiveNone(graph, j + 1, geoRef, isFloat);
    }
  }

  // ----------------------------------------------------------- _parse_data

  /**
   * `dataset.get('isAccessibleForFree')` as the `Boolean` column will bind
   * it: an absent key or `null` is None, a boolean or a number equal to 0
   * or 1 is that truth value, and a string, list, object or other number is
   * refused.
   */
  function BoolOf(v: Option<Json>): (r: Option<BooleanBind>)
    ensures r.None? <==> v.None? || v == Some(JNull)
    ensures v.Some? && v.value.JBool? ==> r == Some(Stored(v.value.b))
    ensures v.Some? && v.value.JNum? && IsZeroNumeral(v.value.text) ==> r == Some(Stored(false))
    ensures v.Some? && v.value.JNum? && IsOneNumeral(v.value.text) ==> r == Some(Stored(true))
    ensures r == Some(Refused) <==>
              v.Some? && (v.value.JStr? || v.value.JArr? || v.value.JObj?
                          || (v.value.JNum? && !IsZeroNumeral(v.value.text) && !IsOneNumeral(v.value.text)))
  {
    match v
    case None => None
    case Some(JNull) => None
    case Some(JBool(b)) => Some(Stored(b))
    case Some(JNum(t)) =>
      if IsZeroNumeral(t) then (if IsOneNumeral(t) then OneIsNotZero(t); None else Some(Stored(false)))
      else if IsOneNumeral(t) then Some(Stored(true))
      else Some(Refused)
    case Some(_) => Some(Refused)
  }

  /**
   * `_parse_data`: the body must be a JSON object whose `@graph` holds a
   * Dataset node; the record is read from that node.
   */
  function ParseData(p: Payload, isFloat: string -> bool): (r: Result<JsonLdRecord>)
    ensures r.Ok? ==> p.json.Some? && p.json.value.JObj?
    ensures r.Ok? ==> r.value.rawJsonld == p.text && r.value.rawJsonldSize == p.size
    ensures r.Ok? ==> '/' !in r.value.fileIdentifier && r.value.keywordsWithTermSets == []
    ensures r.Ok? ==>
      var graph := Iter(LookupOr(p.json.value.fields, "@graph", JArr([])));
      graph.Ok? && FindFrom(graph.value, 0).Ok? && FindFrom(graph.value, 0).value.Some?
  {
    if p.json.None? || !p.json.value.JObj? then Failed(Raised)
    else
      var graph := Iter(LookupOr(p.json.value.fields, "@graph", JArr([])));
      if graph.Failed? then Failed(Raised)
      else
        var found := FindFrom(graph.value, 0);
        if found.Failed? || found.value.None? then Failed(Raised)
        else
          var ds := found.value.value;
          var fid := FileIdentifierOf(ds);
          var creators := CreatorIds(ds);
          var spatial := SpatialCoverage(ds, graph.value, isFloat);
          var temporal := TemporalText(ds);
          if fid.Failed? || creators.Failed? || spatial.Failed? || temporal.Failed? then Failed(Raised)
          else
            var publisher := LookupOr(ds, "publisher", JNull);
            Ok(JsonLdRecord(
              fileIdentifier := fid.value,
              title := TextOf(ds, "name"),
              abstractText := TextOf(ds, "description"),
              creditText := TextOf(ds, "creditText"),
              isAccessibleForFree := BoolOf(Lookup(ds, "isAccessibleForFree")),
              datePublished := ParseDate(TextOf(ds, "datePublished")),
              creatorOrcids := creators.value,
              spatialCoverage := spatial.value,
              temporalCoverage := ParseTemporalExtent(temporal.value),
              license := TextOf(ds, "license"),
              publisherUri := if publisher.JObj? then TextOf(publisher.fields, "@id") else None,
              keywordsWithTermSets := [],
              rawJsonld := p.text,
              rawJsonldSize := p.size))
  }

  /** A graph without a Dataset node fails to parse. */
  lemma NoDatasetFails(p: Payload, isFloat: string -> bool)
    requires p.json.Some? && p.json.value.JObj?
    requires var graph := Iter(LookupOr(p.json.value.fields, "@graph", JArr([])));
      graph.Ok? && forall k :: 0 <= k < |graph.value| ==> graph.value[k].JObj? && !IsDatasetNode(graph.value[k])
    ensures ParseData(p, isFloat).Failed?
  {
  }

  /** `validate`: both the file identifier and the title are non-empty. */
  function Validate(r: JsonLdRecord): (ok: bool)
    ensures ok <==> r.fileIdentifier != [] && Present(r.title)
  {
    r.fileIdentifier != [] && Present(r.title)
  }
}
