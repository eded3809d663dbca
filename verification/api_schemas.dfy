// backend/api/schemas.py: the request models' field constraints and
// validators, and the publication-date serialiser of the response models.

module ApiSchemas {
  import opened Common
  import opened Strings
  import opened EtlDateUtils
  import opened ApiDateUtils

  const MaxQueryLength: nat := 500
  const DefaultTopK: int := 10
  const MaxTopK: int := 100
  const DefaultPage: int := 1
  const DefaultPageSize: int := 20
  const MaxPageSize: int := 100

  /** Every character is whitespace (`not v.strip()`). */
  predicate Blank(s: string) {
    forall i :: 0 <= i < |s| ==> IsSpace(s[i])
  }

  /** Neither end of `s` is whitespace. */
  predicate Trimmed(s: string) {
    s != [] ==> !IsSpace(s[0]) && !IsSpace(s[|s| - 1])
  }

  lemma StripTrims(s: string)
    ensures Trimmed(Strip(s)) && |Strip(s)| <= |s|
    ensures Strip(s) == [] <==> Blank(s)
  {
    StripEmptyIff(s);
    var l := StripLeft(s);
    var t := StripRight(l);
    if t != [] {
      assert t[0] == l[0];
    }
  }

  /** A text with no whitespace at either end strips to itself. */
  lemma StripTrimmed(s: string)
    requires Trimmed(s)
    ensures Strip(s) == s
  {
    assert StripLeft(s) == s;
  }

  // ------------------------------------------------------- semantic search

  datatype SemanticSearchRequest = SemanticSearchRequest(query: string, topK: int)

  /**
   * `SemanticSearchRequest`: the query's 1..500 length is checked on the
   * text as sent, a whitespace-only query is refused, and the stored query
   * is the stripped text; `top_k` defaults to 10 and lies in 1..100.
   */
  function ValidateSemanticSearch(query: string, topK: Option<int>): (r: Result<SemanticSearchRequest>)
    ensures r.Ok? <==> 1 <= |query| <= MaxQueryLength && !Blank(query) && 1 <= topK.GetOr(DefaultTopK) <= MaxTopK
    ensures r.Ok? ==> r.value.query == Strip(query) && r.value.topK == topK.GetOr(DefaultTopK)
    ensures r.Failed? ==> r.reason == Invalid
  {
    StripEmptyIff(query);
    var k := topK.GetOr(DefaultTopK);
    if 1 <= |query| <= MaxQueryLength && Strip(query) != [] && 1 <= k <= MaxTopK then
      Ok(SemanticSearchRequest(Strip(query), k))
    else Failed(Invalid)
  }

  /**
   * An accepted request holds a non-empty query of at most 500 characters
   * with no whitespace at either end, and validating it again changes
   * nothing.
   */
  lemma ValidatedSemanticSearchIsStable(query: string, topK: Option<int>)
    requires ValidateSemanticSearch(query, topK).Ok?
    ensures var req := ValidateSemanticSearch(query, topK).value;
      1 <= |req.query| <= MaxQueryLength && Trimmed(req.query)
      && ValidateSemanticSearch(req.query, Some(req.topK)) == Ok(req)
  {
    var req := ValidateSemanticSearch(query, topK).value;
    StripTrims(query);
    StripTrimmed(req.query);
    StripTrims(req.query);
  }

  // --------------------------------------------------------- hybrid search

  datatype HybridSearchRequest = HybridSearchRequest(
    query: Option<string>,
    authors: Option<seq<string>>,
    organizations: Option<seq<string>>,
    keywords: Option<seq<string>>,
    dateFrom: Option<string>,
    dateTo: Option<string>,
    spatialBbox: Option<map<string, real>>,
    topK: int)

  /**
   * `HybridSearchRequest`: the query is optional, at most 500 characters and
   * kept as sent; `top_k` defaults to 10 and lies in 1..100; the filters are
   * taken as they are.
   */
  function ValidateHybridSearch(query: Option<string>, authors: Option<seq<string>>,
                                organizations: Option<seq<string>>, keywords: Option<seq<string>>,
                                dateFrom: Option<string>, dateTo: Option<string>,
                                spatialBbox: Option<map<string, real>>, topK: Option<int>)
    : (r: Result<HybridSearchRequest>)
    ensures r.Ok? <==> (query.None? || |query.value| <= MaxQueryLength) && 1 <= topK.GetOr(DefaultTopK) <= MaxTopK
    ensures r.Ok? ==>
      r.value.query == query && r.value.topK == topK.GetOr(DefaultTopK)
      && r.value.authors == authors && r.value.organizations == organizations && r.value.keywords == keywords
      && r.value.dateFrom == dateFrom && r.value.dateTo == dateTo && r.value.spatialBbox == spatialBbox
    ensures r.Failed? ==> r.reason == Invalid
  {
    var k := topK.GetOr(DefaultTopK);
    if (query.None? || |query.value| <= MaxQueryLength) && 1 <= k <= MaxTopK then
      Ok(HybridSearchRequest(query, authors, organizations, keywords, dateFrom, dateTo, spatialBbox, k))
    else Failed(Invalid)
  }

  /** Unlike the semantic request, an empty or whitespace-only hybrid query is accepted. */
  lemma HybridAcceptsBlankQuery(query: string)
    requires |query| <= MaxQueryLength
    ensures ValidateHybridSearch(Some(query), None, None, None, None, None, None, None).Ok?
    ensures Blank(query) ==> ValidateSemanticSearch(query, None).Failed?
  {
  }

  // ---------------------------------------------------------- dataset list

  datatype DatasetListRequest = DatasetListRequest(page: int, pageSize: int, sortBy: string, sortOrder: string)

  /** `DatasetListRequest`: page 1 or more (default 1), page size 1..100 (default 20), sorted by title ascending by default. */
  function ValidateDatasetList(page: Option<int>, pageSize: Option<int>, sortBy: Option<string>, sortOrder: Option<string>)
    : (r: Result<DatasetListRequest>)
    ensures r.Ok? <==> page.GetOr(DefaultPage) >= 1 && 1 <= pageSize.GetOr(DefaultPageSize) <= MaxPageSize
    ensures r.Ok? ==>
      r.value.page == page.GetOr(DefaultPage) && r.value.pageSize == pageSize.GetOr(DefaultPageSize)
      && r.value.sortBy == sortBy.GetOr("title") && r.value.sortOrder == sortOrder.GetOr("asc")
    ensures r.Failed? ==> r.reason == Invalid
  {
    var p, n := page.GetOr(DefaultPage), pageSize.GetOr(DefaultPageSize);
    if p >= 1 && 1 <= n <= MaxPageSize then Ok(DatasetListRequest(p, n, sortBy.GetOr("title"), sortOrder.GetOr("asc")))
    else Failed(Invalid)
  }

  // --------------------------------------------------------- serialisation

  /** A publication date as a response model holds it: text, or a date. */
  datatype DateValue = DateText(text: string) | Day(date: Date)

  /** `serialize_date`: None stays None, a date becomes its ISO text, text passes through. */
  function SerializeDate(dt: Option<DateValue>): (r: Option<string>)
    requires dt.Some? && dt.value.Day? ==> ValidDate(dt.value.date)
    ensures r.None? <==> dt.None?
    ensures dt.Some? && dt.value.DateText? ==> r == Some(dt.value.text)
    ensures dt.Some? && dt.value.Day? ==> |r.value| == 10
  {
    match dt
    case None => None
    case Some(DateText(t)) => Some(t)
    case Some(Day(d)) => Some(FormatDateForApi(d))
  }

  /** A serialised date is read back as the same date by the API's own parser. */
  lemma SerializedDateParsesBack(d: Date)
    requires ValidDate(d)
    ensures ParseDateString(SerializeDate(Some(Day(d))).value) == Ok(d)
  {
    ParseFormatRoundTrip(d);
  }
}
