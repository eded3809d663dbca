// backend/embeddings/search.py: loads the model, the index and the slot
// snapshot on first use, turns the index's hits into ranked results and
// enriches them from the database.

module SemanticSearch {
  import opened Common
  import opened JsonValue
  import opened EtlDateUtils
  import opened DbSchema
  import opened EmbeddingGenerator

  const DefaultTopK: int := 10

  /** One hit of the nearest-neighbour index: its score and the slot it points at. */
  datatype Hit = Hit(distance: real, slot: int)

  /** A loaded index: its search returns the hits for a query vector and a count, best first. */
  datatype VectorIndex = VectorIndex(size: nat, search: (Vector, int) -> seq<Hit>)

  /** The two files the generator writes, as found on disk: None when the file is missing. */
  datatype StoredFiles = StoredFiles(index: Option<VectorIndex>, metadata: Option<Snapshot>)

  datatype Bounds = Bounds(west: Option<string>, east: Option<string>, south: Option<string>, north: Option<string>)
  datatype Period = Period(start: Option<Date>, end: Option<Date>)

  /** The keys `enrich_results` adds to a result whose dataset row exists. */
  datatype Enrichment = Enrichment(
    keywords: seq<string>,
    spatialExtent: Option<Bounds>,
    temporalExtent: Option<Period>,
    publicationDate: Option<Date>)

  /** A search result; `enrichment` is None until `enrich_results` finds the dataset's row. */
  datatype SearchResult = SearchResult(
    rank: nat,
    datasetId: string,
    fileIdentifier: string,
    title: Option<string>,
    abstractText: Option<string>,
    similarityScore: real,
    distance: real,
    enrichment: Option<Enrichment>)

  /** `top_k or DEFAULT_TOP_K`. */
  function EffectiveTopK(topK: Option<int>): (k: int)
    ensures topK.None? || topK.value == 0 ==> k == DefaultTopK
    ensures topK.Some? && topK.value != 0 ==> k == topK.value
  {
    if topK.Some? && topK.value != 0 then topK.value else DefaultTopK
  }

  /** Python's `s[i]`: negative positions count from the end; anything else raises IndexError. */
  function PyIndex<T>(s: seq<T>, i: int): (r: Option<T>)
    ensures r.Some? <==> -|s| <= i < |s|
    ensures 0 <= i < |s| ==> r == Some(s[i])
    ensures -|s| <= i < 0 ==> r == Some(s[|s| + i])
  {
    if 0 <= i < |s| then Some(s[i])
    else if -|s| <= i < 0 then Some(s[|s| + i])
    else None
  }

  /** Both lists of the snapshot can be read at the hit's slot. */
  predicate Readable(h: Hit, meta: Snapshot) {
    PyIndex(meta.datasetIds, h.slot).Some? && PyIndex(meta.metadata, h.slot).Some?
  }

  /** The integer nearest to `y`, a tie going to the even one, as Python's `round` does. */
  function RoundHalfEven(y: real): (n: int)
    ensures -0.5 <= n as real - y <= 0.5
    ensures (n as real - y == 0.5 || y - n as real == 0.5) ==> n % 2 == 0
  {
    var f := y.Floor;
    var frac := y - f as real;
    if frac > 0.5 then f + 1
    else if frac < 0.5 then f
    else if f % 2 == 0 then f else f + 1
  }

  /** `round(x, 4)`: the nearest multiple of 1/10000, ties to the even multiple. */
  function Round4(x: real): (r: real)
    ensures -0.00005 <= r - x <= 0.00005
    ensures r * 10000.0 == (r * 10000.0).Floor as real
  {
    var y := x * 10000.0;
    var n := RoundHalfEven(y);
    var r := n as real / 10000.0;
    assert r * 10000.0 == n as real && (n as real).Floor == n;
    assert r - x == (n as real - y) / 10000.0;
    r
  }

  /** Rounding a rounded score changes nothing. */
  lemma Round4Idempotent(x: real)
    ensures Round4(Round4(x)) == Round4(x)
  {
    var n := RoundHalfEven(x * 10000.0);
    assert Round4(x) * 10000.0 == n as real;
    var m := RoundHalfEven(n as real);
    assert -0.5 <= m as real - n as real <= 0.5;
    assert m == n;
  }

  /**
   * The result for one hit: the id from `dataset_ids[slot]` and the rest
   * from `metadata[slot]`. Embeddings are normalised, so the similarity is
   * the index's score, rounded to four decimals; the distance is the score
   * itself.
   */
  function ResultAt(h: Hit, rank: nat, meta: Snapshot): SearchResult
    requires Readable(h, meta)
  {
    var entry := PyIndex(meta.metadata, h.slot).value;
    SearchResult(rank, PyIndex(meta.datasetIds, h.slot).value, entry.fileIdentifier, entry.title, entry.abstractText,
                 Round4(h.distance), h.distance, None)
  }

  /**
   * The result list of `search` for the index's hits: one result per hit,
   * ranked 1..n in hit order, each read from the hit's slot; an unreadable
   * slot raises.
   */
  function Assemble(hits: seq<Hit>, meta: Snapshot): (r: Result<seq<SearchResult>>)
    ensures r.Ok? <==> forall j :: 0 <= j < |hits| ==> Readable(hits[j], meta)
    ensures r.Ok? ==> |r.value| == |hits|
    ensures r.Ok? ==> forall j :: 0 <= j < |hits| ==>
      r.value[j].rank == j + 1 && r.value[j].datasetId == PyIndex(meta.datasetIds, hits[j].slot).value
      && r.value[j].fileIdentifier == PyIndex(meta.metadata, hits[j].slot).value.fileIdentifier
      && r.value[j].distance == hits[j].distance && r.value[j].enrichment.None?
      && r.value[j].similarityScore == Round4(hits[j].distance)
  {
    if forall j :: 0 <= j < |hits| ==> Readable(hits[j], meta) then
      Ok(seq(|hits|, j requires 0 <= j < |hits| => ResultAt(hits[j], j + 1, meta)))
    else Failed(Raised)
  }

  /**
   * Against a snapshot written by the generator, a hit on slot `s` of the
   * index describes the `s`-th dataset it was generated from.
   */
  lemma ResultDescribesGeneratedDataset(hits: seq<Hit>, datasets: seq<DatasetSummary>, j: nat)
    requires j < |hits| && 0 <= hits[j].slot < |datasets|
    requires Assemble(hits, SnapshotOf(datasets, ModelName)).Ok?
    ensures var r := Assemble(hits, SnapshotOf(datasets, ModelName)).value[j];
      var d := datasets[hits[j].slot];
      r.datasetId == d.id && r.fileIdentifier == d.fileIdentifier && r.title == d.title
      && r.abstractText == Snippet(d.abstractText)
  {
    var meta := SnapshotOf(datasets, ModelName);
    assert Readable(hits[j], meta);
    assert Assemble(hits, meta).value[j] == ResultAt(hits[j], j + 1, meta);
  }

  /** `_apply_filters`: no filter is implemented, so the results come back as they are. */
  function ApplyFilters(results: seq<SearchResult>, filters: map<string, Json>): (r: seq<SearchResult>)
    ensures r == results
  {
    results
  }

  /** The keyword texts of a dataset row, in storage order. */
  function KeywordTexts(row: DatasetRow): (ts: seq<string>)
    ensures |ts| == |row.keywords| && forall k :: 0 <= k < |ts| ==> ts[k] == row.keywords[k].keyword
  {
    seq(|row.keywords|, k requires 0 <= k < |row.keywords| => row.keywords[k].keyword)
  }

  /** What `enrich_results` adds for a dataset row; `orderBy` is the keyword query's ORDER BY. */
  function EnrichmentOf(row: DatasetRow, orderBy: seq<string> -> seq<string>): (e: Enrichment)
    ensures e.keywords == orderBy(KeywordTexts(row))
    ensures e.spatialExtent.Some? <==> Present(row.spatialWest)
    ensures e.temporalExtent.Some? <==> row.temporalStart.Some?
    ensures e.spatialExtent.Some? ==> e.spatialExtent.value == Bounds(row.spatialWest, row.spatialEast, row.spatialSouth, row.spatialNorth)
    ensures e.temporalExtent.Some? ==> e.temporalExtent.value == Period(row.temporalStart, row.temporalEnd)
    ensures e.publicationDate == row.publicationDate
  {
    Enrichment(
      orderBy(KeywordTexts(row)),
      if Present(row.spatialWest) then Some(Bounds(row.spatialWest, row.spatialEast, row.spatialSouth, row.spatialNorth)) else None,
      if row.temporalStart.Some? then Some(Period(row.temporalStart, row.temporalEnd)) else None,
      row.publicationDate)
  }

  /**
   * With an ORDER BY that only rearranges the keyword texts, the enrichment
   * lists exactly the row's keywords, each as often as the row holds it.
   */
  lemma EnrichmentListsRowKeywords(row: DatasetRow, orderBy: seq<string> -> seq<string>, t: string)
    requires multiset(orderBy(KeywordTexts(row))) == multiset(KeywordTexts(row))
    ensures multiset(EnrichmentOf(row, orderBy).keywords)[t] == multiset(KeywordTexts(row))[t]
    ensures t in EnrichmentOf(row, orderBy).keywords <==> exists k :: 0 <= k < |row.keywords| && row.keywords[k].keyword == t
  {
    var ts := KeywordTexts(row);
    assert t in EnrichmentOf(row, orderBy).keywords <==> t in multiset(ts);
    if t in ts {
      var k :| 0 <= k < |ts| && ts[k] == t;
      assert row.keywords[k].keyword == t;
    }
  }

  /** One result after enrichment: unchanged when its dataset has no row. */
  function Enriched(r: SearchResult, db: map<string, DatasetRow>, orderBy: seq<string> -> seq<string>): (e: SearchResult)
    ensures e.(enrichment := r.enrichment) == r
    ensures r.datasetId !in db ==> e == r
    ensures r.datasetId in db ==> e.enrichment == Some(EnrichmentOf(db[r.datasetId], orderBy))
  {
    if r.datasetId in db then r.(enrichment := Some(EnrichmentOf(db[r.datasetId], orderBy))) else r
  }

  /**
   * `SemanticSearch`: the model, the index, the snapshot and the database
   * connection are each set on first use.
   */
  class Searcher {
    var model: Option<EncoderModel>
    var index: Option<VectorIndex>
    var metadata: Option<Snapshot>
    var connected: bool

    constructor ()
      ensures model.None? && index.None? && metadata.None? && !connected
    {
      model, index, metadata, connected := None, None, None, false;
    }

    /** `load_model`: loads only while unset; later calls return the same model. */
    method LoadModel(load: string -> EncoderModel) returns (m: EncoderModel)
      modifies this
      ensures old(model).Some? ==> model == old(model) && m == old(model).value
      ensures old(model).None? ==> model == Some(load(ModelName)) && m == load(ModelName)
      ensures index == old(index) && metadata == old(metadata) && connected == old(connected)
    {
      if model.None? {
        model := Some(load(ModelName));
      }
      m := model.value;
    }

    /** `load_index`: a missing file raises FileNotFoundError and leaves the index unset. */
    method LoadIndex(files: StoredFiles) returns (r: Result<VectorIndex>)
      modifies this
      ensures old(index).Some? ==> index == old(index) && r == Ok(old(index).value)
      ensures old(index).None? && files.index.None? ==> index.None? && r == Failed(NotFound)
      ensures old(index).None? && files.index.Some? ==> index == files.index && r == Ok(files.index.value)
      ensures model == old(model) && metadata == old(metadata) && connected == old(connected)
    {
      if index.None? {
        if files.index.None? {
          return Failed(NotFound);
        }
        index := files.index;
      }
      r := Ok(index.value);
    }

    /** `load_metadata`: a missing file raises FileNotFoundError and leaves the snapshot unset. */
    method LoadMetadata(files: StoredFiles) returns (r: Result<Snapshot>)
      modifies this
      ensures old(metadata).Some? ==> metadata == old(metadata) && r == Ok(old(metadata).value)
      ensures old(metadata).None? && files.metadata.None? ==> metadata.None? && r == Failed(NotFound)
      ensures old(metadata).None? && files.metadata.Some? ==> metadata == files.metadata && r == Ok(files.metadata.value)
      ensures model == old(model) && index == old(index) && connected == old(connected)
    {
      if metadata.None? {
        if files.metadata.None? {
          return Failed(NotFound);
        }
        metadata := files.metadata;
      }
      r := Ok(metadata.value);
    }

    /**
     * `search`: the index and the snapshot are loaded (a missing file
     * raises), the query is encoded, and each hit becomes a result ranked
     * by its position.
     */
    method Search(query: string, topK: Option<int>, filters: Option<map<string, Json>>, files: StoredFiles,
                  load: string -> EncoderModel)
      returns (r: Result<seq<SearchResult>>)
      modifies this
      ensures connected == old(connected)
      ensures old(index).None? && files.index.None? ==> r == Failed(NotFound)
      ensures r.Ok? ==> index.Some? && metadata.Some? && model.Some?
      ensures index.Some? && metadata.Some? && model.Some? ==>
        r == Assemble(index.value.search(model.value.encode(query), EffectiveTopK(topK)), metadata.value)
      ensures old(index).Some? ==> index == old(index)
      ensures old(metadata).Some? ==> metadata == old(metadata)
      ensures old(model).Some? ==> model == old(model)
    {
      var k := EffectiveTopK(topK);
      var idx := LoadIndex(files);
      if idx.Failed? {
        return Failed(idx.reason);
      }
      var meta := LoadMetadata(files);
      if meta.Failed? {
        return Failed(meta.reason);
      }
      var m := LoadModel(load);
      var hits := idx.value.search(m.encode(query), k);
      r := CollectResults(hits, meta.value);
      if r.Ok? && filters.Some? && filters.value != map[] {
        r := Ok(ApplyFilters(r.value, filters.value));
      }
    }

    /** The loop of `search`: one result per hit, ranked by position; an unreadable slot raises. */
    static method CollectResults(hits: seq<Hit>, meta: Snapshot) returns (r: Result<seq<SearchResult>>)
      ensures r == Assemble(hits, meta)
    {
      var results: seq<SearchResult> := [];
      var i := 0;
      while i < |hits|
        invariant 0 <= i <= |hits|
        invariant forall j :: 0 <= j < i ==> Readable(hits[j], meta)
        invariant results == seq(i, j requires 0 <= j < i => ResultAt(hits[j], j + 1, meta))
      {
        var id := PyIndex(meta.datasetIds, hits[i].slot);
        var entry := PyIndex(meta.metadata, hits[i].slot);
        if id.None? || entry.None? {
          return Failed(Raised);
        }
        results := results + [SearchResult(i + 1, id.value, entry.value.fileIdentifier, entry.value.title,
                                           entry.value.abstractText, Round4(hits[i].distance), hits[i].distance, None)];
        i := i + 1;
      }
      r := Ok(results);
    }

    /** `connect_database`: connects once. */
    method ConnectDatabase()
      modifies this
      ensures connected
      ensures model == old(model) && index == old(index) && metadata == old(metadata)
    {
      if !connected {
        connected := true;
      }
    }

    /**
     * `enrich_results`: same count and order; each result whose dataset row
     * exists gets its details. The database is connected on the first lookup.
     */
    method EnrichResults(results: seq<SearchResult>, db: map<string, DatasetRow>, orderBy: seq<string> -> seq<string>)
      returns (enriched: seq<SearchResult>)
      modifies this
      ensures connected == (old(connected) || |results| > 0)
      ensures model == old(model) && index == old(index) && metadata == old(metadata)
      ensures |enriched| == |results|
      ensures forall j :: 0 <= j < |results| ==> enriched[j] == Enriched(results[j], db, orderBy)
    {
      enriched := [];
      var i := 0;
      while i < |results|
        invariant 0 <= i <= |results| && |enriched| == i
        invariant forall j :: 0 <= j < i ==> enriched[j] == Enriched(results[j], db, orderBy)
        invariant model == old(model) && index == old(index) && metadata == old(metadata)
        invariant connected == (old(connected) || i > 0)
      {
        ConnectDatabase();
        var result := results[i];
        if result.datasetId in db {
          var row := db[result.datasetId];
          var keywords := orderBy(seq(|row.keywords|, k requires 0 <= k < |row.keywords| => row.keywords[k].keyword));
          var spatial := if Present(row.spatialWest) then Some(Bounds(row.spatialWest, row.spatialEast, row.spatialSouth, row.spatialNorth)) else None;
          var temporal := if row.temporalStart.Some? then Some(Period(row.temporalStart, row.temporalEnd)) else None;
          result := result.(enrichment := Some(Enrichment(keywords, spatial, temporal, row.publicationDate)));
        }
        enriched := enriched + [result];
        i := i + 1;
      }
    }

    /** `close`: drops the connection and nothing else. */
    method Close()
      modifies this
      ensures !connected
      ensures model == old(model) && index == old(index) && metadata == old(metadata)
    {
      if connected {
        connected := false;
      }
    }
  }
}
