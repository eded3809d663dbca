// backend/api/routes/datasets.py: listing, detail and child-table routes.
// The database is the `datasets` table in storage order, each row holding
// its child rows; the SQL ORDER BY of the listing is a parameter.

module ApiDatasetRoutes {
  import opened Common
  import opened Strings
  import opened EtlDateUtils
  import opened DbSchema
  import opened Collections
  import opened ApiDateUtils
  import opened ApiSchemas
  import opened ApiDependencies

  type Table = seq<DatasetRow>

  /** The dates a stored row holds are real dates, as Python's `date` guarantees. */
  predicate RowDatesValid(row: DatasetRow) {
    (row.publicationDate.Some? ==> ValidDate(row.publicationDate.value))
    && (row.temporalStart.Some? ==> ValidDate(row.temporalStart.value))
    && (row.temporalEnd.Some? ==> ValidDate(row.temporalEnd.value))
  }

  predicate TableDatesValid(table: Table) {
    forall i :: 0 <= i < |table| ==> RowDatesValid(table[i])
  }

  /** `query(DatasetModel).filter(DatasetModel.id == id).first()`: the first row with that id. */
  function Find(table: Table, id: string): (r: Option<nat>)
    ensures r.None? <==> forall i :: 0 <= i < |table| ==> table[i].id != id
    ensures r.Some? ==> r.value < |table| && table[r.value].id == id
    ensures r.Some? ==> forall i :: 0 <= i < r.value ==> table[i].id != id
  {
    if table == [] then None
    else if table[0].id == id then Some(0)
    else match Find(table[1..], id)
      case None => None
      case Some(i) => Some(i + 1)
  }

  // --------------------------------------------------------------- listing

  /** The columns of `DatasetModel`; `hasattr` selects one of them for sorting. */
  const DatasetColumns: set<string> := {
    "id", "file_identifier", "title", "abstract", "description", "lineage",
    "publication_date", "metadata_date", "updated_date", "metadata_standard",
    "metadata_standard_version", "language", "resource_status", "resource_type",
    "spatial_west", "spatial_east", "spatial_south", "spatial_north",
    "temporal_start", "temporal_end", "credit_text", "is_accessible_for_free",
    "additional_metadata", "created_at", "updated_at"}

  /** An ORDER BY: a column and its direction. */
  datatype SortKey = SortKey(column: string, descending: bool)

  /**
   * `hasattr(DatasetModel, sort_by)` then `getattr(...).asc()`/`.desc()`: a
   * column sorts in the requested direction; a name that is an attribute of
   * the class but not a column (`__tablename__`, `metadata`, `registry`, a
   * dunder) has no `asc`, so the route fails with a 500; any other name sorts
   * by title ascending. `otherAttribute` says which non-column names the
   * class has, since Python's attribute lookup is not modelled.
   */
  function SortKeyFor(sortBy: string, sortOrder: string, otherAttribute: string -> bool): (k: Result<SortKey>)
    ensures k.Ok? ==> k.value.column in DatasetColumns
    ensures k.Failed? <==> sortBy !in DatasetColumns && otherAttribute(sortBy)
    ensures k.Failed? ==> k.reason == ServerError
    ensures sortBy in DatasetColumns ==> k == Ok(SortKey(sortBy, sortOrder == "desc"))
    ensures sortBy !in DatasetColumns && !otherAttribute(sortBy) ==> k == Ok(SortKey("title", false))
  {
    if sortBy in DatasetColumns then Ok(SortKey(sortBy, sortOrder == "desc"))
    else if otherAttribute(sortBy) then Failed(ServerError)
    else Ok(SortKey("title", false))
  }

  /** `DatasetSummary.model_validate(row)`. */
  datatype ListedDataset = ListedDataset(
    id: string, fileIdentifier: string, title: Option<string>, abstractText: Option<string>,
    publicationDate: Option<DateValue>)

  function Listed(row: DatasetRow): ListedDataset {
    ListedDataset(row.id, row.fileIdentifier, row.title, row.abstractText,
                  if row.publicationDate.Some? then Some(Day(row.publicationDate.value)) else None)
  }

  datatype ListResponse = ListResponse(total: nat, page: int, pageSize: int, totalPages: int, datasets: seq<ListedDataset>)

  /** `OFFSET offset LIMIT n`. */
  function PageOf<T>(rows: seq<T>, offset: nat, n: nat): (r: seq<T>)
    ensures |r| <= n
    ensures forall j :: 0 <= j < |r| ==> offset + j < |rows| && r[j] == rows[offset + j]
    ensures |r| == Min(n, Max(0, |rows| - offset))
  {
    if offset >= |rows| then [] else rows[offset..Min(offset + n, |rows|)]
  }

  /** `(total + page_size - 1) // page_size`. */
  function TotalPages(total: nat, pageSize: int): (p: int)
    requires pageSize >= 1
  {
    (total + pageSize - 1) / pageSize
  }

  /** The page count is the ceiling of total over page size. */
  lemma TotalPagesIsCeiling(total: nat, pageSize: int)
    requires pageSize >= 1
    ensures total == 0 <==> TotalPages(total, pageSize) == 0
    ensures total > 0 ==> (TotalPages(total, pageSize) - 1) * pageSize < total <= TotalPages(total, pageSize) * pageSize
  {
    var p := TotalPages(total, pageSize);
    var m := total + pageSize - 1;
    assert m == pageSize * p + m % pageSize;
    assert p * pageSize == pageSize * p;
    if total > 0 {
      assert (p - 1) * pageSize == p * pageSize - pageSize;
    }
  }

  /**
   * `list_datasets`: the query parameters' bounds (422), the pagination
   * check, the sort order (400), the sort column (500 for a non-column
   * attribute), then one page of the rows in the chosen order with the
   * total and the page count.
   */
  function ListDatasets(table: Table, page: int, pageSize: int, sortBy: string, sortOrder: string,
                        otherAttribute: string -> bool, ordered: SortKey -> seq<DatasetRow>)
    : (r: Result<ListResponse>)
    ensures page < 1 || pageSize < 1 || pageSize > MaxPageSize ==> r == Failed(Invalid)
    ensures page >= 1 && 1 <= pageSize <= MaxPageSize && sortOrder != "asc" && sortOrder != "desc" ==> r == Failed(BadRequest)
    ensures (page >= 1 && 1 <= pageSize <= MaxPageSize && (sortOrder == "asc" || sortOrder == "desc")
             && sortBy !in DatasetColumns && otherAttribute(sortBy)) ==> r == Failed(ServerError)
    ensures r.Ok? <==> page >= 1 && 1 <= pageSize <= MaxPageSize && (sortOrder == "asc" || sortOrder == "desc")
                       && (sortBy in DatasetColumns || !otherAttribute(sortBy))
    ensures r.Ok? ==>
      var rows := ordered(SortKeyFor(sortBy, sortOrder, otherAttribute).value);
      var offset := (page - 1) * pageSize;
      r.value.total == |table| && r.value.page == page && r.value.pageSize == pageSize
      && r.value.totalPages == TotalPages(|table|, pageSize)
      && |r.value.datasets| <= pageSize
      && forall j :: 0 <= j < |r.value.datasets| ==> offset + j < |rows| && r.value.datasets[j] == Listed(rows[offset + j])
  {
    if page < 1 || pageSize < 1 || pageSize > MaxPageSize then Failed(Invalid)
    else
      var p := GetPaginationParams(page, pageSize);
      if sortOrder != "asc" && sortOrder != "desc" then Failed(BadRequest)
      else match SortKeyFor(sortBy, sortOrder, otherAttribute)
        case Failed(e) => Failed(e)
        case Ok(key) =>
          var rows := PageOf(ordered(key), p.value.offset, p.value.pageSize);
          Ok(ListResponse(|table|, page, p.value.pageSize, TotalPages(|table|, pageSize),
                          seq(|rows|, j requires 0 <= j < |rows| => Listed(rows[j]))))
  }

  /**
   * With an ORDER BY that rearranges the table's rows, every row of the
   * table is listed: at the position `p` it takes in the ordering, on page
   * `p / pageSize + 1` at index `p % pageSize`, a page within the count.
   */
  lemma EveryRowIsListed(table: Table, pageSize: int, sortBy: string, sortOrder: string,
                         otherAttribute: string -> bool, ordered: SortKey -> seq<DatasetRow>, i: nat)
    requires 1 <= pageSize <= MaxPageSize && (sortOrder == "asc" || sortOrder == "desc")
    requires sortBy in DatasetColumns || !otherAttribute(sortBy)
    requires multiset(ordered(SortKeyFor(sortBy, sortOrder, otherAttribute).value)) == multiset(table) && i < |table|
    ensures exists p: nat :: p < |table| && ListedAt(table, pageSize, sortBy, sortOrder, otherAttribute, ordered, p, table[i])
  {
    var rows := ordered(SortKeyFor(sortBy, sortOrder, otherAttribute).value);
    assert table[i] in multiset(rows);
    var p :| 0 <= p < |rows| && rows[p] == table[i];
    assert |rows| == |multiset(rows)| == |table|;
    PositionIsListed(table, pageSize, sortBy, sortOrder, otherAttribute, ordered, p);
  }

  /** Row `p` of an ordering as long as the table is listed on page `p / pageSize + 1`. */
  lemma PositionIsListed(table: Table, pageSize: int, sortBy: string, sortOrder: string,
                         otherAttribute: string -> bool, ordered: SortKey -> seq<DatasetRow>, p: nat)
    requires 1 <= pageSize <= MaxPageSize && (sortOrder == "asc" || sortOrder == "desc")
    requires sortBy in DatasetColumns || !otherAttribute(sortBy)
    requires |ordered(SortKeyFor(sortBy, sortOrder, otherAttribute).value)| == |table| && p < |table|
    ensures ListedAt(table, pageSize, sortBy, sortOrder, otherAttribute, ordered, p,
                     ordered(SortKeyFor(sortBy, sortOrder, otherAttribute).value)[p])
  {
    RowPosition(p, pageSize);
    PageWithinCount(|table|, pageSize, p);
    var page := p / pageSize + 1;
    var r := ListDatasets(table, page, pageSize, sortBy, sortOrder, otherAttribute, ordered);
    var rows := ordered(SortKeyFor(sortBy, sortOrder, otherAttribute).value);
    assert (page - 1) * pageSize + p % pageSize == p;
    assert |r.value.datasets| == |PageOf(rows, (page - 1) * pageSize, pageSize)|;
  }

  /** With an ORDER BY that rearranges the table's rows, every listed row is a row of the table. */
  lemma ListedRowsAreTableRows(table: Table, page: int, pageSize: int, sortBy: string, sortOrder: string,
                               otherAttribute: string -> bool, ordered: SortKey -> seq<DatasetRow>, j: nat)
    requires ListDatasets(table, page, pageSize, sortBy, sortOrder, otherAttribute, ordered).Ok?
    requires multiset(ordered(SortKeyFor(sortBy, sortOrder, otherAttribute).value)) == multiset(table)
    requires j < |ListDatasets(table, page, pageSize, sortBy, sortOrder, otherAttribute, ordered).value.datasets|
    ensures exists t :: (t in table
      && ListDatasets(table, page, pageSize, sortBy, sortOrder, otherAttribute, ordered).value.datasets[j] == Listed(t))
  {
    var r := ListDatasets(table, page, pageSize, sortBy, sortOrder, otherAttribute, ordered);
    var rows := ordered(SortKeyFor(sortBy, sortOrder, otherAttribute).value);
    OffsetIsNat(page, pageSize);
    var pg := PageOf(rows, (page - 1) * pageSize, pageSize);
    assert r.value.datasets[j] == Listed(pg[j]);
    assert pg[j] in multiset(rows);
    assert pg[j] in table && r.value.datasets[j] == Listed(pg[j]);
  }

  lemma OffsetIsNat(page: int, pageSize: int)
    requires page >= 1 && pageSize >= 1
    ensures (page - 1) * pageSize >= 0
  {
  }

  /** `row` is listed at index `p % pageSize` of page `p / pageSize + 1`, a page within the count. */
  predicate ListedAt(table: Table, pageSize: int, sortBy: string, sortOrder: string,
                     otherAttribute: string -> bool, ordered: SortKey -> seq<DatasetRow>, p: nat, row: DatasetRow)
    requires pageSize >= 1
  {
    var page := p / pageSize + 1;
    var r := ListDatasets(table, page, pageSize, sortBy, sortOrder, otherAttribute, ordered);
    r.Ok? && page <= r.value.totalPages && p % pageSize < |r.value.datasets|
    && r.value.datasets[p % pageSize] == Listed(row)
  }

  lemma RowPosition(p: nat, pageSize: int)
    requires pageSize >= 1
    ensures (p / pageSize) * pageSize + p % pageSize == p
    ensures 0 <= p % pageSize < pageSize
  {
  }

  lemma PageWithinCount(total: nat, pageSize: int, p: nat)
    requires pageSize >= 1 && p < total
    ensures p / pageSize + 1 <= TotalPages(total, pageSize)
  {
    TotalPagesIsCeiling(total, pageSize);
    var tp := TotalPages(total, pageSize);
    if p / pageSize + 1 > tp {
      assert tp <= p / pageSize;
      assert tp * pageSize <= (p / pageSize) * pageSize;
      RowPosition(p, pageSize);
      assert false;
    }
  }

  // ---------------------------------------------------------------- detail

  /** A spatial bound, as the stored text that `float` reads; the float itself is not part of this model. */
  datatype SpatialExtent = SpatialExtent(west: Option<string>, east: Option<string>, south: Option<string>, north: Option<string>)
  datatype TemporalExtent = TemporalExtent(start: Option<string>, end: Option<string>)

  /** A non-empty stored bound that `float` rejects with a ValueError. */
  predicate BadBound(s: Option<string>, isFloat: string -> bool) {
    Present(s) && !isFloat(s.value)
  }

  /**
   * `float(x) if x else None`: an empty bound is None, a numeric one is
   * kept, and any other text raises, which the route answers with a 500.
   * `isFloat` says which texts Python's `float` accepts.
   */
  function Bound(s: Option<string>, isFloat: string -> bool): (r: Result<Option<string>>)
    ensures r.Failed? <==> BadBound(s, isFloat)
    ensures r.Failed? ==> r.reason == ServerError
    ensures r.Ok? ==> (r.value.Some? <==> Present(s)) && (r.value.Some? ==> r.value == s && isFloat(s.value))
  {
    if !Present(s) then Ok(None)
    else if isFloat(s.value) then Ok(s)
    else Failed(ServerError)
  }

  /** Some bound of the row is non-empty and not a number. */
  predicate HasBadBound(row: DatasetRow, isFloat: string -> bool) {
    BadBound(row.spatialWest, isFloat) || BadBound(row.spatialEast, isFloat)
    || BadBound(row.spatialSouth, isFloat) || BadBound(row.spatialNorth, isFloat)
  }

  /**
   * Built when any of the four bounds is non-empty; fails when a non-empty
   * bound is not a number; otherwise every empty bound becomes None and
   * every other one is kept.
   */
  function SpatialExtentOf(row: DatasetRow, isFloat: string -> bool): (e: Result<Option<SpatialExtent>>)
    ensures e.Failed? <==> HasBadBound(row, isFloat)
    ensures e.Failed? ==> e.reason == ServerError
    ensures e.Ok? ==>
      (e.value.Some? <==> Present(row.spatialWest) || Present(row.spatialEast) || Present(row.spatialSouth) || Present(row.spatialNorth))
    ensures e.Ok? && e.value.Some? ==>
      (e.value.value.west.Some? <==> Present(row.spatialWest)) && (e.value.value.east.Some? <==> Present(row.spatialEast))
      && (e.value.value.south.Some? <==> Present(row.spatialSouth)) && (e.value.value.north.Some? <==> Present(row.spatialNorth))
      && (e.value.value.west.Some? ==> e.value.value.west == row.spatialWest)
      && (e.value.value.east.Some? ==> e.value.value.east == row.spatialEast)
      && (e.value.value.south.Some? ==> e.value.value.south == row.spatialSouth)
      && (e.value.value.north.Some? ==> e.value.value.north == row.spatialNorth)
  {
    if !(Present(row.spatialWest) || Present(row.spatialEast) || Present(row.spatialSouth) || Present(row.spatialNorth)) then Ok(None)
    else
      var w := Bound(row.spatialWest, isFloat);
      var x := Bound(row.spatialEast, isFloat);
      var s := Bound(row.spatialSouth, isFloat);
      var n := Bound(row.spatialNorth, isFloat);
      if w.Failed? || x.Failed? || s.Failed? || n.Failed? then Failed(ServerError)
      else Ok(Some(SpatialExtent(w.value, x.value, s.value, n.value)))
  }

  /** `str(d) if d else None` on a stored date. */
  function DateTextOf(d: Option<Date>): (r: Option<string>)
    requires d.Some? ==> ValidDate(d.value)
    ensures r.Some? <==> d.Some?
    ensures r.Some? ==> ParseDateString(r.value) == Ok(d.value)
  {
    if d.Some? then
      ParseFormatRoundTrip(d.value);
      Some(FormatDateForApi(d.value))
    else None
  }

  /** Built when either end is set; each end is its ISO text, and reads back as the stored date. */
  function TemporalExtentOf(row: DatasetRow): (e: Option<TemporalExtent>)
    requires RowDatesValid(row)
    ensures e.Some? <==> row.temporalStart.Some? || row.temporalEnd.Some?
    ensures e.Some? ==> e.value.start == DateTextOf(row.temporalStart) && e.value.end == DateTextOf(row.temporalEnd)
  {
    if row.temporalStart.Some? || row.temporalEnd.Some? then
      Some(TemporalExtent(DateTextOf(row.temporalStart), DateTextOf(row.temporalEnd)))
    else None
  }

  /** `DatasetDetail`, with its two extents replaced as `get_dataset` does. */
  datatype DatasetDetail = DatasetDetail(
    id: string, fileIdentifier: string, title: Option<string>, abstractText: Option<string>,
    lineage: Option<string>, publicationDate: Option<DateValue>,
    spatialExtent: Option<SpatialExtent>, temporalExtent: Option<TemporalExtent>,
    keywords: seq<KeywordRow>, contacts: seq<ContactRow>, onlineResources: seq<ResourceRow>,
    metadataDocuments: seq<DocumentRow>)

  /** `get_dataset`: a missing id is a 404, a row with a non-numeric bound a 500. */
  function GetDataset(table: Table, id: string, isFloat: string -> bool): (r: Result<DatasetDetail>)
    requires TableDatesValid(table)
    ensures r.Failed? <==> Find(table, id).None? || HasBadBound(table[Find(table, id).value], isFloat)
    ensures r.Failed? ==> r.reason == (if Find(table, id).None? then NotFound else ServerError)
    ensures r.Ok? ==>
      var row := table[Find(table, id).value];
      r.value.id == id && r.value.fileIdentifier == row.fileIdentifier && r.value.title == row.title
      && r.value.abstractText == row.abstractText && r.value.lineage == row.lineage
      && Ok(r.value.spatialExtent) == SpatialExtentOf(row, isFloat) && r.value.temporalExtent == TemporalExtentOf(row)
      && r.value.keywords == row.keywords && r.value.contacts == row.contacts
      && r.value.onlineResources == row.onlineResources && r.value.metadataDocuments == row.metadataDocuments
  {
    match Find(table, id)
    case None => Failed(NotFound)
    case Some(i) =>
      var row := table[i];
      match SpatialExtentOf(row, isFloat)
      case Failed(e) => Failed(e)
      case Ok(spatial) =>
        Ok(DatasetDetail(row.id, row.fileIdentifier, row.title, row.abstractText, row.lineage,
                         if row.publicationDate.Some? then Some(Day(row.publicationDate.value)) else None,
                         spatial, TemporalExtentOf(row),
                         row.keywords, row.contacts, row.onlineResources, row.metadataDocuments))
  }

  // ------------------------------------------------------------- children

  /** A child table: the child rows of every dataset, dataset by dataset. */
  function AllKeywords(table: Table): seq<KeywordRow> {
    Flatten(seq(|table|, i requires 0 <= i < |table| => table[i].keywords))
  }

  function AllContacts(table: Table): seq<ContactRow> {
    Flatten(seq(|table|, i requires 0 <= i < |table| => table[i].contacts))
  }

  function AllResources(table: Table): seq<ResourceRow> {
    Flatten(seq(|table|, i requires 0 <= i < |table| => table[i].onlineResources))
  }

  function AllDocuments(table: Table): seq<DocumentRow> {
    Flatten(seq(|table|, i requires 0 <= i < |table| => table[i].metadataDocuments))
  }

  /** `query(Child).filter(Child.dataset_id == id)`: exactly the child rows whose foreign key is `id`. */
  function KeywordsOf(table: Table, id: string): (r: seq<KeywordRow>)
    ensures forall k :: 0 <= k < |r| ==> r[k].datasetId == id && r[k] in AllKeywords(table)
    ensures forall k :: 0 <= k < |AllKeywords(table)| && AllKeywords(table)[k].datasetId == id ==> AllKeywords(table)[k] in r
  {
    Filter(AllKeywords(table), (k: KeywordRow) => k.datasetId == id)
  }

  function ContactsOf(table: Table, id: string): (r: seq<ContactRow>)
    ensures forall k :: 0 <= k < |r| ==> r[k].datasetId == id && r[k] in AllContacts(table)
    ensures forall k :: 0 <= k < |AllContacts(table)| && AllContacts(table)[k].datasetId == id ==> AllContacts(table)[k] in r
  {
    Filter(AllContacts(table), (c: ContactRow) => c.datasetId == id)
  }

  function ResourcesOf(table: Table, id: string): (r: seq<ResourceRow>)
    ensures forall k :: 0 <= k < |r| ==> r[k].datasetId == id && r[k] in AllResources(table)
    ensures forall k :: 0 <= k < |AllResources(table)| && AllResources(table)[k].datasetId == id ==> AllResources(table)[k] in r
  {
    Filter(AllResources(table), (x: ResourceRow) => x.datasetId == id)
  }

  function DocumentsOf(table: Table, id: string): (r: seq<DocumentRow>)
    ensures forall k :: 0 <= k < |r| ==> r[k].datasetId == id && r[k] in AllDocuments(table)
    ensures forall k :: 0 <= k < |AllDocuments(table)| && AllDocuments(table)[k].datasetId == id ==> AllDocuments(table)[k] in r
  {
    Filter(AllDocuments(table), (d: DocumentRow) => d.datasetId == id)
  }

  datatype KeywordView = KeywordView(keyword: string, keywordType: Option<string>, uri: Option<string>)
  datatype KeywordsResponse = KeywordsResponse(datasetId: string, total: nat, keywords: seq<KeywordView>)

  /** `get_dataset_keywords`: 404 for a missing dataset, otherwise every keyword row of it. */
  function GetDatasetKeywords(table: Table, id: string): (r: Result<KeywordsResponse>)
    ensures r.Failed? <==> Find(table, id).None?
    ensures r.Failed? ==> r.reason == NotFound
    ensures r.Ok? ==>
      var ks := KeywordsOf(table, id);
      r.value.datasetId == id && r.value.total == |ks| == |r.value.keywords|
      && forall j :: 0 <= j < |ks| ==> r.value.keywords[j] == KeywordView(ks[j].keyword, ks[j].keywordType, ks[j].uri)
  {
    if Find(table, id).None? then Failed(NotFound)
    else
      var ks := KeywordsOf(table, id);
      Ok(KeywordsResponse(id, |ks|, seq(|ks|, j requires 0 <= j < |ks| => KeywordView(ks[j].keyword, ks[j].keywordType, ks[j].uri))))
  }

  /** Python's `f"{x}"` of an optional text: None renders as "None". */
  function FormatField(s: Option<string>): string {
    if s.Some? then s.value else "None"
  }

  /** The contact name exactly as the route builds it. */
  function ContactNameAsWritten(c: ContactRow): Option<string> {
    if Present(c.givenName) || Present(c.familyName) then Some(Strip(FormatField(c.givenName) + " " + FormatField(c.familyName)))
    else c.fullName
  }

  /** With a given name but no family name, the word "None" ends up in the displayed name. */
  lemma ContactNameShowsNone()
    ensures var c := ContactRow("d", None, Some("Jane"), None, None, None, None, None, "author", None, None);
      ContactNameAsWritten(c) == Some("Jane None")
  {
    var c := ContactRow("d", None, Some("Jane"), None, None, None, None, None, "author", None, None);
    var s := "Jane None";
    assert FormatField(c.givenName) + " " + FormatField(c.familyName) == s;
    assert Trimmed(s) by {
      assert s[0] == 'J' && s[|s| - 1] == 'e';
    }
    StripTrimmed(s);
  }

  /** Strip ignores whitespace added at either end. */
  lemma {:induction false} StripLeftAppend(a: string, b: string)
    requires !Blank(a)
    ensures StripLeft(a + b) == StripLeft(a) + b
  {
    if IsSpace(a[0]) {
      assert (a + b)[1..] == a[1..] + b;
      StripLeftAppend(a[1..], b);
    }
  }

  lemma StripSpaceAfter(s: string)
    ensures Strip(s + " ") == Strip(s)
  {
    if Blank(s) {
      BlankSpaceAfter(s);
    } else {
      StripLeftAppend(s, " ");
      StripRightSpace(StripLeft(s));
    }
  }

  lemma BlankSpaceAfter(s: string)
    requires Blank(s)
    ensures Strip(s + " ") == [] && Strip(s) == []
  {
    assert Blank(s + " ") by {
      forall i | 0 <= i < |s + " "| ensures IsSpace((s + " ")[i]) {
        if i < |s| {
          assert (s + " ")[i] == s[i];
        }
      }
    }
    StripTrims(s + " ");
    StripTrims(s);
  }

  lemma StripRightSpace(l: string)
    ensures StripRight(l + " ") == StripRight(l)
  {
    assert (l + " ")[|l|] == ' ' && IsSpace(' ');
    assert (l + " ")[..|l|] == l;
  }

  lemma StripSpaceBefore(s: string)
    ensures Strip(" " + s) == Strip(s)
  {
    assert (" " + s)[1..] == s;
  }

  /**
   * The display name as evidently intended: given and family name joined
   * by a space and stripped, a missing part counting as empty; the full
   * name when neither part is set.
   */
  function ContactName(c: ContactRow): Option<string> {
    if Present(c.givenName) || Present(c.familyName) then Some(Strip(c.givenName.GetOr("") + " " + c.familyName.GetOr("")))
    else c.fullName
  }

  /** A missing part adds nothing to the name: it is the other part, stripped. */
  lemma ContactNameDropsMissingPart(c: ContactRow)
    ensures Present(c.givenName) && c.familyName.None? ==> ContactName(c) == Some(Strip(c.givenName.value))
    ensures c.givenName.None? && Present(c.familyName) ==> ContactName(c) == Some(Strip(c.familyName.value))
    ensures !Present(c.givenName) && !Present(c.familyName) ==> ContactName(c) == c.fullName
  {
    if Present(c.givenName) && c.familyName.None? {
      assert c.givenName.value + " " + "" == c.givenName.value + " ";
      StripSpaceAfter(c.givenName.value);
    }
    if c.givenName.None? && Present(c.familyName) {
      assert "" + " " + c.familyName.value == " " + c.familyName.value;
      StripSpaceBefore(c.familyName.value);
    }
  }

  /** The two agree whenever both parts are set, and differ only in the "None" the route prints. */
  lemma ContactNameAgreesWhenBothSet(c: ContactRow)
    requires c.givenName.Some? && c.familyName.Some?
    ensures ContactName(c) == ContactNameAsWritten(c)
  {
  }

  datatype ContactView = ContactView(role: string, name: Option<string>, organization: Option<string>,
                                     email: Option<string>, orcid: Option<string>)
  datatype ContactsResponse = ContactsResponse(datasetId: string, total: nat, contacts: seq<ContactView>)

  /** `get_dataset_contacts`: 404 for a missing dataset, otherwise every contact row of it, named as the route names it. */
  function GetDatasetContacts(table: Table, id: string): (r: Result<ContactsResponse>)
    ensures r.Failed? <==> Find(table, id).None?
    ensures r.Failed? ==> r.reason == NotFound
    ensures r.Ok? ==>
      var cs := ContactsOf(table, id);
      r.value.datasetId == id && r.value.total == |cs| == |r.value.contacts|
      && forall j :: 0 <= j < |cs| ==>
        r.value.contacts[j] == ContactView(cs[j].role, ContactNameAsWritten(cs[j]), cs[j].organizationName, cs[j].email, cs[j].nameIdentifier)
  {
    if Find(table, id).None? then Failed(NotFound)
    else
      var cs := ContactsOf(table, id);
      Ok(ContactsResponse(id, |cs|, seq(|cs|, j requires 0 <= j < |cs| =>
        ContactView(cs[j].role, ContactNameAsWritten(cs[j]), cs[j].organizationName, cs[j].email, cs[j].nameIdentifier))))
  }

  datatype ResourceView = ResourceView(url: Option<string>, function_: Option<string>, description: Option<string>, protocol: Option<string>)
  datatype ResourcesResponse = ResourcesResponse(datasetId: string, total: nat, resources: seq<ResourceView>)

  /** `get_dataset_resources`: 404 for a missing dataset; the protocol shown is the stored resource type. */
  function GetDatasetResources(table: Table, id: string): (r: Result<ResourcesResponse>)
    ensures r.Failed? <==> Find(table, id).None?
    ensures r.Failed? ==> r.reason == NotFound
    ensures r.Ok? ==>
      var rs := ResourcesOf(table, id);
      r.value.datasetId == id && r.value.total == |rs| == |r.value.resources|
      && forall j :: 0 <= j < |rs| ==>
        r.value.resources[j] == ResourceView(rs[j].url, rs[j].resourceFunction, rs[j].description, rs[j].resourceType)
  {
    if Find(table, id).None? then Failed(NotFound)
    else
      var rs := ResourcesOf(table, id);
      Ok(ResourcesResponse(id, |rs|, seq(|rs|, j requires 0 <= j < |rs| =>
        ResourceView(rs[j].url, rs[j].resourceFunction, rs[j].description, rs[j].resourceType))))
  }

  // -------------------------------------------------------------- metadata

  const MetadataFormats: seq<string> := ["xml", "json", "jsonld", "rdf"]

  datatype DocumentView = DocumentView(format: string, content: string)
  datatype DocumentsResponse = DocumentsResponse(datasetId: string, total: nat, documents: seq<DocumentView>)

  function Views(ds: seq<DocumentRow>): (vs: seq<DocumentView>)
    ensures |vs| == |ds|
    ensures forall j :: 0 <= j < |ds| ==> vs[j] == DocumentView(ds[j].format, ds[j].content)
  {
    seq(|ds|, j requires 0 <= j < |ds| => DocumentView(ds[j].format, ds[j].content))
  }

  /**
   * `get_dataset_metadata`: 404 for a missing dataset; a requested format
   * is lower-cased and must be one of the four (400), and finding no
   * document of it is a 404; with no format every document is returned,
   * possibly none. Lower-casing only ASCII letters decides membership in
   * the four names exactly as full lower-casing would.
   */
  function GetDatasetMetadata(table: Table, id: string, format: Option<string>): (r: Result<DocumentsResponse>)
    ensures Find(table, id).None? ==> r == Failed(NotFound)
    ensures Find(table, id).Some? && Present(format) && Lower(format.value) !in MetadataFormats ==> r == Failed(BadRequest)
    ensures Find(table, id).Some? && Present(format) && Lower(format.value) in MetadataFormats ==>
      (r == Failed(NotFound) <==> forall k :: 0 <= k < |DocumentsOf(table, id)| ==> DocumentsOf(table, id)[k].format != Lower(format.value))
    ensures r.Ok? && Present(format) ==>
      r.value.total > 0 && forall j :: 0 <= j < |r.value.documents| ==> r.value.documents[j].format == Lower(format.value)
    ensures r.Ok? ==> forall j :: 0 <= j < |r.value.documents| ==> r.value.documents[j] in Views(DocumentsOf(table, id))
    ensures r.Ok? && Present(format) ==>
      forall k :: 0 <= k < |DocumentsOf(table, id)| && DocumentsOf(table, id)[k].format == Lower(format.value) ==>
        Views(DocumentsOf(table, id))[k] in r.value.documents
    ensures Find(table, id).Some? && !Present(format) ==> r == Ok(DocumentsResponse(id, |DocumentsOf(table, id)|, Views(DocumentsOf(table, id))))
    ensures r.Ok? ==> r.value.datasetId == id && r.value.total == |r.value.documents|
  {
    if Find(table, id).None? then Failed(NotFound)
    else if Present(format) then
      var lower := Lower(format.value);
      if lower !in MetadataFormats then Failed(BadRequest)
      else DocumentsOfFormat(id, DocumentsOf(table, id), lower)
    else
      var ds := DocumentsOf(table, id);
      ViewsOfSubset(ds, ds);
      Ok(DocumentsResponse(id, |ds|, Views(ds)))
  }

  /** The documents of a dataset in one format: none is a 404, otherwise all of them and only them. */
  function DocumentsOfFormat(id: string, docs: seq<DocumentRow>, format: string): (r: Result<DocumentsResponse>)
    ensures r == Failed(NotFound) <==> forall k :: 0 <= k < |docs| ==> docs[k].format != format
    ensures r.Failed? ==> r.reason == NotFound
    ensures r.Ok? ==> r.value.datasetId == id && r.value.total == |r.value.documents| > 0
    ensures r.Ok? ==> forall j :: 0 <= j < |r.value.documents| ==>
      r.value.documents[j].format == format && r.value.documents[j] in Views(docs)
    ensures r.Ok? ==> forall k :: 0 <= k < |docs| && docs[k].format == format ==> Views(docs)[k] in r.value.documents
  {
    var ds := OfFormat(docs, format);
    ViewsOfSubset(ds, docs);
    if ds == [] then Failed(NotFound)
    else Ok(DocumentsResponse(id, |ds|, Views(ds)))
  }

  /** `filter(MetadataDocumentModel.format == format)`: the documents of one format, in order. */
  function OfFormat(docs: seq<DocumentRow>, format: string): (ds: seq<DocumentRow>)
    ensures forall j :: 0 <= j < |ds| ==> ds[j].format == format && ds[j] in docs
    ensures forall k :: 0 <= k < |docs| && docs[k].format == format ==> docs[k] in ds
    ensures ds == [] <==> forall k :: 0 <= k < |docs| ==> docs[k].format != format
  {
    var ds := Filter(docs, (d: DocumentRow) => d.format == format);
    assert ds != [] ==> ds[0] in docs;
    ds
  }

  /** The views of documents taken from `docs` are views of `docs`. */
  lemma ViewsOfSubset(ds: seq<DocumentRow>, docs: seq<DocumentRow>)
    requires forall j :: 0 <= j < |ds| ==> ds[j] in docs
    ensures forall j :: 0 <= j < |ds| ==> Views(ds)[j] in Views(docs)
    ensures forall k :: 0 <= k < |docs| && docs[k] in ds ==> Views(docs)[k] in Views(ds)
  {
    forall j | 0 <= j < |ds| ensures Views(ds)[j] in Views(docs) {
      assert ds[j] in docs;
      var k :| 0 <= k < |docs| && docs[k] == ds[j];
      assert Views(docs)[k] == Views(ds)[j];
    }
    forall k | 0 <= k < |docs| && docs[k] in ds ensures Views(docs)[k] in Views(ds) {
      assert docs[k] in ds;
      var j :| 0 <= j < |ds| && ds[j] == docs[k];
      assert Views(docs)[k] == Views(ds)[j];
    }
  }

  /** A format that exists among the dataset's documents is always found, in any letter case. */
  lemma StoredFormatIsFound(table: Table, id: string, format: string, k: nat)
    requires Find(table, id).Some? && Lower(format) in MetadataFormats
    requires k < |DocumentsOf(table, id)| && DocumentsOf(table, id)[k].format == Lower(format)
    ensures GetDatasetMetadata(table, id, Some(format)).Ok?
  {
    assert DocumentsOf(table, id)[k] in OfFormat(DocumentsOf(table, id), Lower(format));
  }
}
