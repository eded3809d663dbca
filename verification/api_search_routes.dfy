// backend/api/routes/search.py: the semantic, enriched and hybrid search
// routes. The search engine is a parameter standing for
// `search.search(query, top_k=k)`; the database is the `datasets` table in
// storage order.

module ApiSearchRoutes {
  import opened Common
  import opened Strings
  import opened EtlDateUtils
  import opened DbSchema
  import opened Collections
  import opened ApiDateUtils
  import opened ApiSchemas
  import opened ApiDatasetRoutes
  import opened EmbeddingGenerator
  import S = SemanticSearch

  /** The response model `SearchResult`. */
  datatype ApiResult = ApiResult(
    rank: int,
    datasetId: string,
    fileIdentifier: string,
    title: Option<string>,
    abstractText: Option<string>,
    similarityScore: real,
    distance: Option<real>,
    keywords: Option<seq<string>>,
    spatialExtent: Option<SpatialExtent>,
    temporalExtent: Option<TemporalExtent>,
    publicationDate: Option<string>)

  datatype SearchResponse = SearchResponse(query: string, totalResults: nat, results: seq<ApiResult>)

  /** `search.search(query, top_k=k)`: the results, or the exception it raised. */
  type Engine = (string, int) -> Result<seq<S.SearchResult>>

  /** A search result carried over with no enrichment. */
  function Basic(r: S.SearchResult): ApiResult {
    ApiResult(r.rank, r.datasetId, r.fileIdentifier, r.title, r.abstractText, r.similarityScore, Some(r.distance),
              None, None, None, None)
  }

  // ------------------------------------------------------------- semantic

  /** `semantic_search`: a failing search is a 500; otherwise one response entry per result, in order. */
  function SemanticSearchRoute(request: SemanticSearchRequest, engine: Engine): (r: Result<SearchResponse>)
    ensures r.Failed? <==> engine(request.query, request.topK).Failed?
    ensures r.Failed? ==> r.reason == ServerError
    ensures r.Ok? ==>
      var found := engine(request.query, request.topK).value;
      r.value.query == request.query && r.value.totalResults == |r.value.results| == |found|
      && forall j :: 0 <= j < |found| ==> r.value.results[j] == Basic(found[j])
  {
    match engine(request.query, request.topK)
    case Failed(_) => Failed(ServerError)
    case Ok(found) =>
      var rs := seq(|found|, j requires 0 <= j < |found| => Basic(found[j]));
      Ok(SearchResponse(request.query, |rs|, rs))
  }

  /**
   * When the engine is the semantic search over an index and its snapshot,
   * the route lists the hits ranked 1..n, each with the dataset of its slot.
   */
  lemma SemanticRouteRanksHits(request: SemanticSearchRequest, engine: Engine, hits: seq<S.Hit>, meta: Snapshot)
    requires engine(request.query, request.topK) == S.Assemble(hits, meta)
    requires S.Assemble(hits, meta).Ok?
    ensures var r := SemanticSearchRoute(request, engine);
      r.Ok? && r.value.totalResults == |hits|
      && forall j :: 0 <= j < |hits| ==>
        r.value.results[j].rank == j + 1 && r.value.results[j].datasetId == S.PyIndex(meta.datasetIds, hits[j].slot).value
  {
  }

  // ------------------------------------------------------------- enriched

  /**
   * One enriched entry: a result without a dataset row stays basic; with a
   * row it gains the texts of the dataset's keyword rows in storage order
   * (None when it has none), its extents and its publication date, and a
   * non-numeric stored bound fails with a 500.
   */
  function EnrichedResult(r: S.SearchResult, table: Table, isFloat: string -> bool): (e: Result<ApiResult>)
    requires TableDatesValid(table)
    ensures e.Failed? <==> Find(table, r.datasetId).Some? && HasBadBound(table[Find(table, r.datasetId).value], isFloat)
    ensures e.Failed? ==> e.reason == ServerError
    ensures e.Ok? ==> e.value.rank == r.rank && e.value.datasetId == r.datasetId && e.value.similarityScore == r.similarityScore
    ensures Find(table, r.datasetId).None? ==> e == Ok(Basic(r))
    ensures Find(table, r.datasetId).Some? && e.Ok? ==>
      var row := table[Find(table, r.datasetId).value];
      var ks := KeywordsOf(table, r.datasetId);
      Ok(e.value.spatialExtent) == SpatialExtentOf(row, isFloat) && e.value.temporalExtent == TemporalExtentOf(row)
      && e.value.publicationDate == DateTextOf(row.publicationDate)
      && (e.value.keywords.None? <==> ks == [])
      && (e.value.keywords.Some? ==>
            |e.value.keywords.value| == |ks| && forall j :: 0 <= j < |ks| ==> e.value.keywords.value[j] == ks[j].keyword)
  {
    match Find(table, r.datasetId)
    case None => Ok(Basic(r))
    case Some(i) =>
      var row := table[i];
      var ks := KeywordsOf(table, r.datasetId);
      match SpatialExtentOf(row, isFloat)
      case Failed(err) => Failed(err)
      case Ok(spatial) =>
        Ok(Basic(r).(keywords := if ks == [] then None else Some(seq(|ks|, j requires 0 <= j < |ks| => ks[j].keyword)),
                     spatialExtent := spatial, temporalExtent := TemporalExtentOf(row),
                     publicationDate := DateTextOf(row.publicationDate)))
  }

  /**
   * `semantic_search_enriched`: a failing search is a 500, and so is the
   * first result whose dataset row has a non-numeric bound; otherwise the
   * same count, order and ranks as the search, each entry enriched.
   */
  method SemanticSearchEnriched(request: SemanticSearchRequest, engine: Engine, table: Table, isFloat: string -> bool)
    returns (r: Result<SearchResponse>)
    requires TableDatesValid(table)
    ensures r.Failed? <==> engine(request.query, request.topK).Failed?
                           || exists j :: 0 <= j < |engine(request.query, request.topK).value|
                                          && EnrichedResult(engine(request.query, request.topK).value[j], table, isFloat).Failed?
    ensures r.Failed? ==> r.reason == ServerError
    ensures r.Ok? ==>
      var found := engine(request.query, request.topK).value;
      r.value.query == request.query && r.value.totalResults == |r.value.results| == |found|
      && forall j :: 0 <= j < |found| ==> Ok(r.value.results[j]) == EnrichedResult(found[j], table, isFloat)
  {
    var found := engine(request.query, request.topK);
    if found.Failed? {
      return Failed(ServerError);
    }
    var results: seq<ApiResult> := [];
    var i := 0;
    while i < |found.value|
      invariant 0 <= i <= |found.value| && |results| == i
      invariant forall j :: 0 <= j < i ==> Ok(results[j]) == EnrichedResult(found.value[j], table, isFloat)
    {
      var e := EnrichedResult(found.value[i], table, isFloat);
      if e.Failed? {
        return Failed(ServerError);
      }
      results := results + [e.value];
      i := i + 1;
    }
    r := Ok(SearchResponse(request.query, |results|, results));
  }

  // --------------------------------------------------------------- hybrid

  /** SQL `column LIKE '%a%'`; a NULL column matches nothing. */
  predicate LikeAny(column: Option<string>, a: string) {
    column.Some? && Like("%" + a + "%", column.value)
  }

  /** The author condition: any author against the full, given or family name. */
  predicate AuthorMatches(c: ContactRow, authors: seq<string>) {
    exists k :: 0 <= k < |authors| && (LikeAny(c.fullName, authors[k]) || LikeAny(c.givenName, authors[k]) || LikeAny(c.familyName, authors[k]))
  }

  /** The organisation condition: any organisation against the organisation name. */
  predicate OrganizationMatches(c: ContactRow, organizations: seq<string>) {
    exists k :: 0 <= k < |organizations| && LikeAny(c.organizationName, organizations[k])
  }

  /** `SELECT DISTINCT dataset_id FROM contacts WHERE <any author matches>`. */
  function AuthorIds(table: Table, authors: seq<string>): set<string> {
    set c | c in AllContacts(table) && AuthorMatches(c, authors) :: c.datasetId
  }

  function OrganizationIds(table: Table, organizations: seq<string>): set<string> {
    set c | c in AllContacts(table) && OrganizationMatches(c, organizations) :: c.datasetId
  }

  /** `SELECT DISTINCT dataset_id FROM keywords WHERE keyword = kw`: an exact, case-sensitive match. */
  function KeywordIds(table: Table, kw: string): set<string> {
    set k | k in AllKeywords(table) && k.keyword == kw :: k.datasetId
  }

  /** The datasets that hold every keyword of `kws`. */
  function AllKeywordIds(table: Table, kws: seq<string>): (ids: set<string>)
    requires |kws| > 0
  {
    if |kws| == 1 then KeywordIds(table, kws[0])
    else AllKeywordIds(table, kws[..|kws| - 1]) * KeywordIds(table, kws[|kws| - 1])
  }

  /** The intersection holds exactly the datasets having each keyword. */
  lemma {:induction false} AllKeywordIdsMeansEvery(table: Table, kws: seq<string>, id: string)
    requires |kws| > 0
    ensures id in AllKeywordIds(table, kws) <==> forall j :: 0 <= j < |kws| ==> id in KeywordIds(table, kws[j])
  {
    if |kws| > 1 {
      var init := kws[..|kws| - 1];
      AllKeywordIdsMeansEvery(table, init, id);
      assert forall j :: 0 <= j < |init| ==> init[j] == kws[j];
    }
  }

  /** The keyword loop: the first keyword's datasets, then intersected with each next one's. */
  method IntersectKeywordIds(table: Table, kws: seq<string>) returns (ids: set<string>)
    requires |kws| > 0
    ensures ids == AllKeywordIds(table, kws)
  {
    var acc: Option<set<string>> := None;
    var i := 0;
    while i < |kws|
      invariant 0 <= i <= |kws|
      invariant i == 0 <==> acc.None?
      invariant i > 0 ==> acc == Some(AllKeywordIds(table, kws[..i]))
    {
      var found := KeywordIds(table, kws[i]);
      if acc.None? {
        acc := Some(found);
      } else {
        acc := Some(acc.value * found);
      }
      assert kws[..i + 1][..i] == kws[..i];
      i := i + 1;
    }
    assert kws[..i] == kws;
    ids := acc.value;
  }

  /** The query box, each bound as `str(float)` renders it. */
  datatype Bbox = Bbox(west: string, east: string, south: string, north: string)

  /** The spatial filter applies only when all four keys are given. */
  function BboxOf(b: Option<map<string, real>>, floatText: real -> string): (r: Option<Bbox>)
    ensures r.Some? <==> b.Some? && "west" in b.value && "east" in b.value && "south" in b.value && "north" in b.value
  {
    if b.Some? && "west" in b.value && "east" in b.value && "south" in b.value && "north" in b.value then
      Some(Bbox(floatText(b.value["west"]), floatText(b.value["east"]), floatText(b.value["south"]), floatText(b.value["north"])))
    else None
  }

  /** Dates in calendar order. */
  predicate DateLe(a: Date, b: Date) {
    a.year < b.year || (a.year == b.year && (a.month < b.month || (a.month == b.month && a.day <= b.day)))
  }

  /** SQLite's comparison of two texts: code point by code point, a prefix first. */
  predicate TextLe(a: string, b: string)
    decreases |a|
  {
    a == [] || (b != [] && (a[0] < b[0] || (a[0] == b[0] && TextLe(a[1..], b[1..]))))
  }

  /** The filters a hybrid request sets: each is None when the request leaves it out. */
  datatype Restrictions = Restrictions(
    authors: Option<set<string>>,
    organizations: Option<set<string>>,
    keywords: Option<set<string>>,
    dateFrom: Option<Date>,
    dateTo: Option<Date>,
    bbox: Option<Bbox>)

  /** The filtered query's WHERE clause: a candidate that passes the filters. */
  predicate Keeps(row: DatasetRow, candidates: seq<string>, f: Restrictions) {
    row.id in candidates && Passes(row, f)
  }

  /** The filters of the WHERE clause; a NULL column fails every comparison. */
  predicate Passes(row: DatasetRow, f: Restrictions) {
    (f.authors.Some? ==> row.id in f.authors.value)
    && (f.organizations.Some? ==> row.id in f.organizations.value)
    && (f.keywords.Some? ==> row.id in f.keywords.value)
    && (f.dateFrom.Some? ==> row.publicationDate.Some? && DateLe(f.dateFrom.value, row.publicationDate.value))
    && (f.dateTo.Some? ==> row.publicationDate.Some? && DateLe(row.publicationDate.value, f.dateTo.value))
    && (f.bbox.Some? ==>
          row.spatialWest.Some? && TextLe(f.bbox.value.west, row.spatialWest.value)
          && row.spatialEast.Some? && TextLe(row.spatialEast.value, f.bbox.value.east)
          && row.spatialSouth.Some? && TextLe(f.bbox.value.south, row.spatialSouth.value)
          && row.spatialNorth.Some? && TextLe(row.spatialNorth.value, f.bbox.value.north))
  }

  /** A list filter is set when the list is given and not empty. */
  predicate HasItems(xs: Option<seq<string>>) {
    xs.Some? && |xs.value| > 0
  }

  /** How the filter stage ends: with the restrictions, with an early empty answer, or with a 400. */
  datatype Stage = Proceed(f: Restrictions) | NoMatch | BadDate

  /**
   * The filters in the route's order: an author, organisation or keyword
   * list that matches no dataset ends the search with no results; an
   * unparsable date bound is a 400.
   */
  function Restrict(request: HybridSearchRequest, table: Table, floatText: real -> string): Stage {
    if HasItems(request.authors) && AuthorIds(table, request.authors.value) == {} then NoMatch
    else if HasItems(request.organizations) && OrganizationIds(table, request.organizations.value) == {} then NoMatch
    else if HasItems(request.keywords) && AllKeywordIds(table, request.keywords.value) == {} then NoMatch
    else if Present(request.dateFrom) && ParseDateString(request.dateFrom.value).Failed? then BadDate
    else if Present(request.dateTo) && ParseDateString(request.dateTo.value).Failed? then BadDate
    else
      Proceed(Restrictions(
        if HasItems(request.authors) then Some(AuthorIds(table, request.authors.value)) else None,
        if HasItems(request.organizations) then Some(OrganizationIds(table, request.organizations.value)) else None,
        if HasItems(request.keywords) then Some(AllKeywordIds(table, request.keywords.value)) else None,
        if Present(request.dateFrom) then Some(ParseDateString(request.dateFrom.value).value) else None,
        if Present(request.dateTo) then Some(ParseDateString(request.dateTo.value).value) else None,
        BboxOf(request.spatialBbox, floatText)))
  }

  /** `request.query and request.query.strip()`: a query that is more than whitespace. */
  predicate HasQuery(request: HybridSearchRequest) {
    request.query.Some? && !Blank(request.query.value)
  }

  /** `request.query or "filter-only"`. */
  function Label(request: HybridSearchRequest): string {
    if Present(request.query) then request.query.value else "filter-only"
  }

  function IdsOf(found: seq<S.SearchResult>): (ids: seq<string>)
    ensures |ids| == |found| && forall j :: 0 <= j < |found| ==> ids[j] == found[j].datasetId
  {
    seq(|found|, j requires 0 <= j < |found| => found[j].datasetId)
  }

  function TableIds(table: Table): (ids: seq<string>)
    ensures |ids| == |table| && forall i :: 0 <= i < |table| ==> ids[i] == table[i].id
  {
    seq(|table|, i requires 0 <= i < |table| => table[i].id)
  }

  /** The `rank_map` entry for `id`: the last result of that dataset wins. */
  function RankEntry(found: seq<S.SearchResult>, id: string): (e: Option<S.SearchResult>)
    ensures e.Some? ==> e.value in found && e.value.datasetId == id
    ensures e.None? <==> forall j :: 0 <= j < |found| ==> found[j].datasetId != id
  {
    if found == [] then None
    else if found[|found| - 1].datasetId == id then Some(found[|found| - 1])
    else RankEntry(found[..|found| - 1], id)
  }

  /** The sort key, `rank_map.get(id, (999, 0.0))[0]`. */
  function RankKey(found: seq<S.SearchResult>, id: string): int {
    match RankEntry(found, id)
    case Some(e) => e.rank
    case None => 999
  }

  /** The score shown, `rank_map.get(id, (i, 0.0))[1]`. */
  function ScoreOf(found: seq<S.SearchResult>, id: string): real {
    match RankEntry(found, id)
    case Some(e) => e.similarityScore
    case None => 0.0
  }

  function HybridResult(rank: int, row: DatasetRow, score: real): ApiResult
    requires RowDatesValid(row)
  {
    ApiResult(rank, row.id, row.fileIdentifier, row.title, row.abstractText, score, None, None, None, None,
              DateTextOf(row.publicationDate))
  }

  /** Rows that all come from the table keep its valid dates. */
  lemma RowsFromTable(rows: seq<DatasetRow>, table: Table)
    requires TableDatesValid(table)
    requires forall k :: 0 <= k < |rows| ==> rows[k] in table
    ensures TableDatesValid(rows)
  {
    forall k | 0 <= k < |rows| ensures RowDatesValid(rows[k]) {
      var i :| 0 <= i < |table| && table[i] == rows[k];
    }
  }

  /** The rows in the order the route lists them: by semantic rank with a query, as stored without. */
  function Ordered(filtered: seq<DatasetRow>, found: seq<S.SearchResult>, semantic: bool): (rows: seq<DatasetRow>)
    requires TableDatesValid(filtered)
    ensures TableDatesValid(rows)
    ensures multiset(rows) == multiset(filtered)
    ensures semantic ==> SortedBy(rows, (row: DatasetRow) => RankKey(found, row.id))
    ensures !semantic ==> rows == filtered
  {
    if semantic then
      var rows := SortBy(filtered, (row: DatasetRow) => RankKey(found, row.id));
      assert forall k :: 0 <= k < |rows| ==> rows[k] in multiset(filtered);
      RowsFromTable(rows, filtered);
      rows
    else filtered
  }

  /** The response for the rows that passed the filters. */
  function Answer(queryLabel: string, filtered: seq<DatasetRow>, found: seq<S.SearchResult>, semantic: bool, topK: nat)
    : (r: SearchResponse)
    requires TableDatesValid(filtered)
  {
    var rs := Ranked(Ordered(filtered, found, semantic), found, semantic, topK);
    SearchResponse(queryLabel, |rs|, rs)
  }

  /** The first `top_k` rows, ranked from 1, scored by their semantic result or 0.0 without a query. */
  function Ranked(rows: seq<DatasetRow>, found: seq<S.SearchResult>, semantic: bool, topK: nat): (rs: seq<ApiResult>)
    requires TableDatesValid(rows)
    ensures |rs| == Min(topK, |rows|)
    ensures forall j :: 0 <= j < |rs| ==>
      rs[j] == HybridResult(j + 1, rows[j], if semantic then ScoreOf(found, rows[j].id) else 0.0)
  {
    var n := Min(topK, |rows|);
    seq(n, j requires 0 <= j < n => HybridResult(j + 1, rows[j], if semantic then ScoreOf(found, rows[j].id) else 0.0))
  }

  /** The rows the filtered query returns, in storage order. */
  function Filtered(table: Table, candidates: seq<string>, f: Restrictions): (rows: seq<DatasetRow>)
    requires TableDatesValid(table)
    ensures TableDatesValid(rows)
    ensures forall k :: 0 <= k < |rows| ==> rows[k] in table && Keeps(rows[k], candidates, f)
    ensures forall i :: 0 <= i < |table| && Keeps(table[i], candidates, f) ==> table[i] in rows
  {
    var rows := Filter(table, (row: DatasetRow) => Keeps(row, candidates, f));
    RowsFromTable(rows, table);
    rows
  }

  /** The semantic stage: the top `3 * top_k` results for a real query, none otherwise. */
  function Found(request: HybridSearchRequest, engine: Engine): Result<seq<S.SearchResult>> {
    if HasQuery(request) then engine(request.query.value, request.topK * 3) else Ok([])
  }

  /** The candidate ids: the semantic results' datasets, or every stored dataset. */
  function Candidates(request: HybridSearchRequest, table: Table, found: seq<S.SearchResult>): seq<string> {
    if HasQuery(request) then IdsOf(found) else TableIds(table)
  }

  /**
   * `hybrid_search`: candidates are the semantic top `3 * top_k` for a real
   * query and every dataset otherwise; the filters narrow them; the
   * survivors are ordered by semantic rank (or kept in storage order) and
   * the first `top_k` are returned.
   */
  function Hybrid(request: HybridSearchRequest, table: Table, engine: Engine, floatText: real -> string)
    : (r: Result<SearchResponse>)
    requires TableDatesValid(table) && request.topK >= 1
  {
    var semantic := HasQuery(request);
    var found := Found(request, engine);
    if found.Failed? then Failed(ServerError)
    else
      var candidates := Candidates(request, table, found.value);
      match Restrict(request, table, floatText)
      case NoMatch => Ok(SearchResponse(Label(request), 0, []))
      case BadDate => Failed(BadRequest)
      case Proceed(f) => Ok(Answer(Label(request), Filtered(table, candidates, f), found.value, semantic, request.topK))
  }

  /** The route as it runs: the keyword loop, the sort and the numbering loop. */
  method HybridSearch(request: HybridSearchRequest, table: Table, engine: Engine, floatText: real -> string)
    returns (r: Result<SearchResponse>)
    requires TableDatesValid(table) && request.topK >= 1
    ensures r == Hybrid(request, table, engine, floatText)
  {
    var semantic := HasQuery(request);
    var found: seq<S.SearchResult> := [];
    var candidates: seq<string>;
    if semantic {
      var res := engine(request.query.value, request.topK * 3);
      if res.Failed? {
        return Failed(ServerError);
      }
      found := res.value;
      candidates := IdsOf(found);
    } else {
      candidates := TableIds(table);
    }
    var queryLabel := Label(request);
    if HasItems(request.keywords) {
      var ids := IntersectKeywordIds(table, request.keywords.value);
      assert ids == AllKeywordIds(table, request.keywords.value);
    }
    var stage := Restrict(request, table, floatText);
    if stage.NoMatch? {
      return Ok(SearchResponse(queryLabel, 0, []));
    }
    if stage.BadDate? {
      return Failed(BadRequest);
    }
    var filtered := Filtered(table, candidates, stage.f);
    var response := RankRows(queryLabel, filtered, found, semantic, request.topK);
    r := Ok(response);
  }

  /** The numbering loop over the filtered rows, sorted by semantic rank when there is a query. */
  method RankRows(queryLabel: string, filtered: seq<DatasetRow>, found: seq<S.SearchResult>, semantic: bool, topK: nat)
    returns (response: SearchResponse)
    requires TableDatesValid(filtered)
    ensures response == Answer(queryLabel, filtered, found, semantic, topK)
  {
    var rows := Ordered(filtered, found, semantic);
    var n := Min(topK, |rows|);
    ghost var expected := Ranked(rows, found, semantic, topK);
    var results: seq<ApiResult> := [];
    for i := 0 to n
      invariant results == expected[..i]
    {
      var score := if semantic then ScoreOf(found, rows[i].id) else 0.0;
      results := results + [HybridResult(i + 1, rows[i], score)];
    }
    assert results == expected;
    response := SearchResponse(queryLabel, |results|, results);
  }

  // ------------------------------------------------- hybrid search properties

  /** Each answer entry is a filtered row, numbered from 1, at most `top_k` of them. */
  lemma AnswerRowsAreFiltered(queryLabel: string, filtered: seq<DatasetRow>, found: seq<S.SearchResult>, semantic: bool, topK: nat)
    requires TableDatesValid(filtered)
    ensures var a := Answer(queryLabel, filtered, found, semantic, topK);
      a.query == queryLabel && a.totalResults == |a.results| <= topK
      && forall j :: 0 <= j < |a.results| ==>
        a.results[j].rank == j + 1 && a.results[j].distance.None?
        && a.results[j].similarityScore == (if semantic then ScoreOf(found, a.results[j].datasetId) else 0.0)
        && exists k :: 0 <= k < |filtered| && filtered[k].id == a.results[j].datasetId
  {
    var rows := Ordered(filtered, found, semantic);
    var rs := Ranked(rows, found, semantic, topK);
    forall j | 0 <= j < |rs| ensures exists k :: 0 <= k < |filtered| && filtered[k].id == rs[j].datasetId {
      assert rows[j] in multiset(filtered);
      var k :| 0 <= k < |filtered| && filtered[k] == rows[j];
    }
  }

  /** An answer shorter than `top_k` lists every filtered row. */
  lemma AnswerListsAllBelowTopK(queryLabel: string, filtered: seq<DatasetRow>, found: seq<S.SearchResult>, semantic: bool,
                                topK: nat, k: nat)
    requires TableDatesValid(filtered)
    requires k < |filtered| && |Answer(queryLabel, filtered, found, semantic, topK).results| < topK
    ensures var a := Answer(queryLabel, filtered, found, semantic, topK);
      exists j :: 0 <= j < |a.results| && a.results[j].datasetId == filtered[k].id
  {
    var rows := Ordered(filtered, found, semantic);
    var rs := Ranked(rows, found, semantic, topK);
    assert filtered[k] in multiset(rows);
    var j :| 0 <= j < |rows| && rows[j] == filtered[k];
    assert rs[j].datasetId == filtered[k].id;
  }

  /** With a real query the answer is ordered by the rank of each row's semantic result. */
  lemma AnswerFollowsRanking(queryLabel: string, filtered: seq<DatasetRow>, found: seq<S.SearchResult>, topK: nat)
    requires TableDatesValid(filtered)
    ensures var a := Answer(queryLabel, filtered, found, true, topK);
      forall i, j :: 0 <= i < j < |a.results| ==> RankKey(found, a.results[i].datasetId) <= RankKey(found, a.results[j].datasetId)
  {
    var rows := Ordered(filtered, found, true);
    var rs := Ranked(rows, found, true, topK);
    var key := (row: DatasetRow) => RankKey(found, row.id);
    forall i, j | 0 <= i < j < |rs| ensures RankKey(found, rs[i].datasetId) <= RankKey(found, rs[j].datasetId) {
      assert key(rows[i]) <= key(rows[j]);
    }
  }

  /** With the filters passed, the response is the answer over the filtered candidates. */
  lemma HybridIsAnswer(request: HybridSearchRequest, table: Table, engine: Engine, floatText: real -> string)
    requires TableDatesValid(table) && request.topK >= 1
    requires Found(request, engine).Ok? && Restrict(request, table, floatText).Proceed?
    ensures var found := Found(request, engine).value;
      var filtered := Filtered(table, Candidates(request, table, found), Restrict(request, table, floatText).f);
      Hybrid(request, table, engine, floatText) == Ok(Answer(Label(request), filtered, found, HasQuery(request), request.topK))
  {
  }

  /**
   * Every hybrid result is a stored dataset among the candidates that passes
   * every filter; the results are numbered from 1 and there are at most
   * `top_k` of them.
   */
  lemma HybridResultsPassFilters(request: HybridSearchRequest, table: Table, engine: Engine, floatText: real -> string)
    requires TableDatesValid(table) && request.topK >= 1
    requires Found(request, engine).Ok? && Restrict(request, table, floatText).Proceed?
    ensures var r := Hybrid(request, table, engine, floatText);
      var cands := Candidates(request, table, Found(request, engine).value);
      var f := Restrict(request, table, floatText).f;
      r.Ok? && r.value.query == Label(request) && r.value.totalResults == |r.value.results| <= request.topK
      && forall j :: 0 <= j < |r.value.results| ==>
        r.value.results[j].rank == j + 1 && r.value.results[j].distance.None?
        && exists row :: row in table && row.id == r.value.results[j].datasetId && Keeps(row, cands, f)
  {
    var found := Found(request, engine).value;
    var cands := Candidates(request, table, found);
    var f := Restrict(request, table, floatText).f;
    var filtered := Filtered(table, cands, f);
    HybridIsAnswer(request, table, engine, floatText);
    AnswerRowsAreFiltered(Label(request), filtered, found, HasQuery(request), request.topK);
    var a := Answer(Label(request), filtered, found, HasQuery(request), request.topK);
    forall j | 0 <= j < |a.results|
      ensures exists row :: row in table && row.id == a.results[j].datasetId && Keeps(row, cands, f)
    {
      var k :| 0 <= k < |filtered| && filtered[k].id == a.results[j].datasetId;
      assert filtered[k] in table && Keeps(filtered[k], cands, f);
    }
  }

  /** With a real query the results are ordered by the rank of their semantic result. */
  lemma HybridFollowsSemanticRanking(request: HybridSearchRequest, table: Table, engine: Engine, floatText: real -> string)
    requires TableDatesValid(table) && request.topK >= 1
    requires HasQuery(request) && Found(request, engine).Ok? && Restrict(request, table, floatText).Proceed?
    ensures var r := Hybrid(request, table, engine, floatText);
      var found := Found(request, engine).value;
      r.Ok?
      && forall i, j :: 0 <= i < j < |r.value.results| ==>
        RankKey(found, r.value.results[i].datasetId) <= RankKey(found, r.value.results[j].datasetId)
  {
    var found := Found(request, engine).value;
    var filtered := Filtered(table, IdsOf(found), Restrict(request, table, floatText).f);
    HybridIsAnswer(request, table, engine, floatText);
    AnswerFollowsRanking(Label(request), filtered, found, request.topK);
  }

  /**
   * With a real query every result is one of the semantic results' datasets
   * and shows that result's similarity score.
   */
  lemma HybridShowsSemanticScores(request: HybridSearchRequest, table: Table, engine: Engine, floatText: real -> string)
    requires TableDatesValid(table) && request.topK >= 1
    requires HasQuery(request) && Found(request, engine).Ok? && Restrict(request, table, floatText).Proceed?
    ensures var r := Hybrid(request, table, engine, floatText);
      var found := Found(request, engine).value;
      r.Ok?
      && forall j :: 0 <= j < |r.value.results| ==>
        RankEntry(found, r.value.results[j].datasetId).Some?
        && r.value.results[j].similarityScore == RankEntry(found, r.value.results[j].datasetId).value.similarityScore
  {
    var found := Found(request, engine).value;
    var filtered := Filtered(table, IdsOf(found), Restrict(request, table, floatText).f);
    HybridIsAnswer(request, table, engine, floatText);
    AnswerRowsAreFiltered(Label(request), filtered, found, true, request.topK);
    var a := Answer(Label(request), filtered, found, true, request.topK);
    forall j | 0 <= j < |a.results| ensures RankEntry(found, a.results[j].datasetId).Some? {
      var k :| 0 <= k < |filtered| && filtered[k].id == a.results[j].datasetId;
      var m :| 0 <= m < |found| && IdsOf(found)[m] == filtered[k].id;
      assert found[m].datasetId == a.results[j].datasetId;
    }
  }

  /**
   * When fewer than `top_k` results come back, nothing was cut: every stored
   * candidate that passes the filters is listed. Without a query every
   * stored dataset is a candidate.
   */
  lemma HybridListsEveryMatchBelowTopK(request: HybridSearchRequest, table: Table, engine: Engine,
                                       floatText: real -> string, i: nat)
    requires TableDatesValid(table) && request.topK >= 1
    requires Found(request, engine).Ok? && Restrict(request, table, floatText).Proceed?
    requires i < |table|
    ensures var r := Hybrid(request, table, engine, floatText);
      var cands := Candidates(request, table, Found(request, engine).value);
      var f := Restrict(request, table, floatText).f;
      r.Ok?
      && (!HasQuery(request) ==> table[i].id in cands)
      && (|r.value.results| < request.topK && Keeps(table[i], cands, f) ==>
            exists j :: 0 <= j < |r.value.results| && r.value.results[j].datasetId == table[i].id)
  {
    var found := Found(request, engine).value;
    var cands := Candidates(request, table, found);
    var f := Restrict(request, table, floatText).f;
    var filtered := Filtered(table, cands, f);
    HybridIsAnswer(request, table, engine, floatText);
    if !HasQuery(request) {
      assert TableIds(table)[i] == table[i].id;
    }
    var a := Answer(Label(request), filtered, found, HasQuery(request), request.topK);
    if |a.results| < request.topK && Keeps(table[i], cands, f) {
      var k :| 0 <= k < |filtered| && filtered[k] == table[i];
      AnswerListsAllBelowTopK(Label(request), filtered, found, HasQuery(request), request.topK, k);
    }
  }

  /**
   * An author list that matches no contact ends the search with an empty
   * answer, before any date is looked at.
   */
  lemma UnmatchedAuthorsGiveNoResults(request: HybridSearchRequest, table: Table, engine: Engine, floatText: real -> string)
    requires TableDatesValid(table) && request.topK >= 1 && Found(request, engine).Ok?
    requires HasItems(request.authors)
    requires forall c :: c in AllContacts(table) ==> !AuthorMatches(c, request.authors.value)
    ensures Hybrid(request, table, engine, floatText) == Ok(SearchResponse(Label(request), 0, []))
  {
    assert AuthorIds(table, request.authors.value) == {};
  }

  /** `col.ilike('%a%')`-style containment: present and holding `a` up to ASCII case. */
  predicate Mentions(column: Option<string>, a: string) {
    column.Some? && ContainsFolded(column.value, a)
  }

  lemma LikeAnyMentions(column: Option<string>, a: string)
    requires NoWildcards(a)
    ensures LikeAny(column, a) <==> Mentions(column, a)
  {
    if column.Some? {
      LikeContains(a, column.value);
    }
  }

  /** The author condition with containment in place of LIKE. */
  predicate MentionsAny(c: ContactRow, authors: seq<string>) {
    exists k :: 0 <= k < |authors| && (Mentions(c.fullName, authors[k]) || Mentions(c.givenName, authors[k]) || Mentions(c.familyName, authors[k]))
  }

  /**
   * For author names without `%` or `_`, a dataset passes the author filter
   * exactly when one of its contacts has a full, given or family name that
   * contains one of the names, ignoring ASCII case.
   */
  lemma AuthorFilterMeansNameContains(table: Table, authors: seq<string>, id: string)
    requires forall k :: 0 <= k < |authors| ==> NoWildcards(authors[k])
    ensures id in AuthorIds(table, authors) <==>
      exists c :: c in AllContacts(table) && c.datasetId == id && MentionsAny(c, authors)
  {
    forall c: ContactRow | true
      ensures AuthorMatches(c, authors) <==> MentionsAny(c, authors)
    {
      forall k | 0 <= k < |authors|
        ensures (LikeAny(c.fullName, authors[k]) <==> Mentions(c.fullName, authors[k]))
          && (LikeAny(c.givenName, authors[k]) <==> Mentions(c.givenName, authors[k]))
          && (LikeAny(c.familyName, authors[k]) <==> Mentions(c.familyName, authors[k]))
      {
        LikeAnyMentions(c.fullName, authors[k]);
        LikeAnyMentions(c.givenName, authors[k]);
        LikeAnyMentions(c.familyName, authors[k]);
      }
    }
  }
}
