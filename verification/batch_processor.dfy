// backend/etl/batch_processor.py: runs the pipeline over a list of file
// identifiers and keeps success, failure and per-format counters.

module BatchProcessor {
  import opened Common
  import opened Strings
  import opened DatasetModel
  import opened DbSchema
  import opened Pipeline

  /** The file system as far as `load_dataset_ids` sees it: which paths exist and each file's lines. */
  datatype Files = Files(pathExists: string -> bool, lines: string -> seq<string>)

  const IdsFileName: string := "metadata-file-identifiers.txt"

  /** The places searched when no ids file is named: the working directory, its parent, the package root. */
  const FallbackPaths: seq<string> := [IdsFileName, "../" + IdsFileName, "backend/" + IdsFileName]

  /** The first path that exists. */
  function FirstExisting(paths: seq<string>, files: Files): (r: Option<string>)
    ensures r.None? <==> forall i :: 0 <= i < |paths| ==> !files.pathExists(paths[i])
    ensures r.Some? ==> exists i :: 0 <= i < |paths| && paths[i] == r.value && files.pathExists(r.value)
                                     && forall j :: 0 <= j < i ==> !files.pathExists(paths[j])
  {
    if paths == [] then None
    else if files.pathExists(paths[0]) then Some(paths[0])
    else
      var r := FirstExisting(paths[1..], files);
      assert forall i :: 1 <= i < |paths| ==> paths[i] == paths[1..][i - 1];
      if r.Some? then
        var i :| 0 <= i < |paths[1..]| && paths[1..][i] == r.value && files.pathExists(r.value)
                 && forall j :: 0 <= j < i ==> !files.pathExists(paths[1..][j]);
        assert paths[i + 1] == r.value;
        r
      else r
  }

  /** `[line.strip() for line in f if line.strip()]`. */
  function NonBlankLines(lines: seq<string>): (r: seq<string>)
    ensures |r| <= |lines|
    ensures forall k :: 0 <= k < |r| ==> Clean(r[k])
  {
    if lines == [] then []
    else
      var s := Strip(lines[0]);
      var rest := NonBlankLines(lines[1..]);
      if s != [] then
        StripIsClean(lines[0]);
        var r := [s] + rest;
        forall k | 0 <= k < |r| ensures Clean(r[k]) {
          if k > 0 {
            assert r[k] == rest[k - 1];
          }
        }
        r
      else rest
  }

  /** A line with no whitespace at either end; `strip` leaves it as it is. */
  predicate Clean(line: string) {
    line != [] && !IsSpace(line[0]) && !IsSpace(line[|line| - 1])
  }

  lemma StripIsClean(line: string)
    ensures Strip(line) != [] ==> Clean(Strip(line))
  {
    var l := StripLeft(line);
    var r := StripRight(l);
    if r != [] {
      assert r[0] == l[0];
    }
  }

  /** A file of clean lines yields its lines unchanged, in order. */
  lemma {:induction false} CleanLinesKept(lines: seq<string>)
    requires forall k :: 0 <= k < |lines| ==> Clean(lines[k])
    ensures NonBlankLines(lines) == lines
  {
    if lines != [] {
      assert StripLeft(lines[0]) == lines[0];
      assert Strip(lines[0]) == lines[0];
      CleanLinesKept(lines[1..]);
    }
  }

  /** Whitespace-only lines contribute nothing. */
  lemma BlankLineDropped(line: string, rest: seq<string>)
    requires forall i :: 0 <= i < |line| ==> IsSpace(line[i])
    ensures NonBlankLines([line] + rest) == NonBlankLines(rest)
  {
    StripEmptyIff(line);
    assert ([line] + rest)[1..] == rest;
  }

  /** `load_dataset_ids` as a value: a missing named file or no fallback file is FileNotFoundError. */
  function LoadSpec(named: Option<string>, files: Files): (r: Result<seq<string>>)
    ensures r.Failed? ==> r.reason == NotFound
    ensures Present(named) ==> (r.Ok? <==> files.pathExists(named.value))
    ensures Present(named) && r.Ok? ==> r.value == NonBlankLines(files.lines(named.value))
    ensures !Present(named) ==> (r.Ok? <==> exists i :: 0 <= i < |FallbackPaths| && files.pathExists(FallbackPaths[i]))
  {
    if Present(named) then
      if files.pathExists(named.value) then Ok(NonBlankLines(files.lines(named.value))) else Failed(NotFound)
    else
      match FirstExisting(FallbackPaths, files)
      case Some(path) => Ok(NonBlankLines(files.lines(path)))
      case None => Failed(NotFound)
  }

  // -------------------------------------------------------------- counters

  /** The `stats` dictionary; the start and end times are left out. */
  datatype Stats = Stats(successCount: nat, failCount: nat, failedIds: seq<string>, formatStats: map<string, nat>)

  const InitialFormatStats: map<string, nat> := map["xml" := 0, "json" := 0, "jsonld" := 0, "rdf" := 0]
  const InitialStats: Stats := Stats(0, 0, [], InitialFormatStats)

  function CountOf(m: map<string, nat>, f: string): nat {
    if f in m then m[f] else 0
  }

  /** The inner loop: one increment per document, keyed by its format. */
  function CountFormats(m: map<string, nat>, docs: seq<MetadataDocument>): map<string, nat> {
    if docs == [] then m
    else
      var before := CountFormats(m, docs[..|docs| - 1]);
      var f := docs[|docs| - 1].format;
      before[f := CountOf(before, f) + 1]
  }

  /** The effect of one dataset's outcome on the counters. */
  function Record(st: Stats, id: string, outcome: Option<Dataset>): Stats {
    if outcome.Some? then
      st.(successCount := st.successCount + 1,
          formatStats := CountFormats(st.formatStats, outcome.value.metadataDocuments))
    else
      st.(failCount := st.failCount + 1, failedIds := st.failedIds + [id])
  }

  /** The counters after the loop has seen each id with its outcome. */
  function Tally(ids: seq<string>, outcomes: seq<Option<Dataset>>): Stats
    requires |ids| == |outcomes|
  {
    if ids == [] then InitialStats
    else Record(Tally(ids[..|ids| - 1], outcomes[..|ids| - 1]), ids[|ids| - 1], outcomes[|ids| - 1])
  }

  /** Every id counts once: as a success or as a failure, and every failure is listed. */
  lemma {:induction false} TallyCountsEveryId(ids: seq<string>, outcomes: seq<Option<Dataset>>)
    requires |ids| == |outcomes|
    ensures Tally(ids, outcomes).successCount + Tally(ids, outcomes).failCount == |ids|
    ensures Tally(ids, outcomes).failCount == |Tally(ids, outcomes).failedIds|
  {
    if ids != [] {
      TallyCountsEveryId(ids[..|ids| - 1], outcomes[..|ids| - 1]);
    }
  }

  /** The ids whose outcome is None, in input order. */
  function FailedIds<D>(ids: seq<string>, outcomes: seq<Option<D>>): seq<string>
    requires |ids| == |outcomes|
  {
    if ids == [] then []
    else (if outcomes[0].None? then [ids[0]] else []) + FailedIds(ids[1..], outcomes[1..])
  }

  lemma {:induction false} FailedIdsSnoc<D>(ids: seq<string>, outcomes: seq<Option<D>>, id: string, o: Option<D>)
    requires |ids| == |outcomes|
    ensures FailedIds(ids + [id], outcomes + [o]) == FailedIds(ids, outcomes) + (if o.None? then [id] else [])
  {
    var tail := if o.None? then [id] else [];
    if ids == [] {
      assert ids + [id] == [id] && outcomes + [o] == [o];
      assert FailedIds([id], [o]) == tail + FailedIds([id][1..], [o][1..]);
    } else {
      var ids', outs' := ids + [id], outcomes + [o];
      var head := if outcomes[0].None? then [ids[0]] else [];
      assert ids'[0] == ids[0] && outs'[0] == outcomes[0];
      assert ids'[1..] == ids[1..] + [id];
      assert outs'[1..] == outcomes[1..] + [o];
      FailedIdsSnoc(ids[1..], outcomes[1..], id, o);
      calc {
        FailedIds(ids', outs');
        head + FailedIds(ids[1..] + [id], outcomes[1..] + [o]);
        head + (FailedIds(ids[1..], outcomes[1..]) + tail);
        (head + FailedIds(ids[1..], outcomes[1..])) + tail;
      }
    }
  }

  /** `failed_ids` lists exactly the ids that came back without a dataset, in order. */
  lemma {:induction false} TallyFailedIds(ids: seq<string>, outcomes: seq<Option<Dataset>>)
    requires |ids| == |outcomes|
    ensures Tally(ids, outcomes).failedIds == FailedIds(ids, outcomes)
  {
    if ids != [] {
      var n := |ids| - 1;
      TallyFailedIds(ids[..n], outcomes[..n]);
      FailedIdsSnoc(ids[..n], outcomes[..n], ids[n], outcomes[n]);
      assert ids[..n] + [ids[n]] == ids;
      assert outcomes[..n] + [outcomes[n]] == outcomes;
    }
  }

  lemma {:induction false} FailedIdsHas<D>(ids: seq<string>, outcomes: seq<Option<D>>, i: nat)
    requires |ids| == |outcomes| && i < |ids| && outcomes[i].None?
    ensures ids[i] in FailedIds(ids, outcomes)
  {
    if i > 0 {
      FailedIdsHas(ids[1..], outcomes[1..], i - 1);
    }
  }

  /**
   * Counted against what the pipeline returns, an identifier for which no
   * format could be extracted always ends up in `failed_ids`.
   */
  lemma NothingExtractedIsFailed(ids: seq<string>, outcomes: seq<Option<Dataset>>,
                                 sources: string -> Sources, freshIds: string -> string, i: nat)
    requires |ids| == |outcomes| && i < |ids|
    requires forall k :: 0 <= k < |ids| ==> ProcessOutcome(ids[k], sources(ids[k]), freshIds(ids[k]), outcomes[k])
    requires var src := sources(ids[i]);
      ExtractXml(ids[i], src).None? && ExtractJson(ids[i], src).None?
      && ExtractJsonLd(ids[i], src).None? && ExtractRdf(ids[i], src).None?
    ensures ids[i] in Tally(ids, outcomes).failedIds
  {
    assert ProcessOutcome(ids[i], sources(ids[i]), freshIds(ids[i]), outcomes[i]);
    TallyFailedIds(ids, outcomes);
    FailedIdsHas(ids, outcomes, i);
  }

  /** Counting by format adds, for each format, the number of documents that carry it. */
  lemma {:induction false} CountFormatsAdds(m: map<string, nat>, docs: seq<MetadataDocument>, f: string)
    ensures CountOf(CountFormats(m, docs), f) == CountOf(m, f) + multiset(Formats(docs))[f]
  {
    if docs != [] {
      var init := docs[..|docs| - 1];
      CountFormatsAdds(m, init, f);
      FormatsAppend(init, [docs[|docs| - 1]]);
      assert init + [docs[|docs| - 1]] == docs;
    }
  }

  /** The formats of the documents of every successful dataset, in processing order. */
  function SuccessFormats(outcomes: seq<Option<Dataset>>): seq<string> {
    if outcomes == [] then []
    else
      var last := outcomes[|outcomes| - 1];
      SuccessFormats(outcomes[..|outcomes| - 1]) + (if last.Some? then Formats(last.value.metadataDocuments) else [])
  }

  /**
   * `format_stats[f]` is its starting value plus one per document of format
   * `f` among the successful datasets.
   */
  lemma {:induction false} TallyFormatStats(ids: seq<string>, outcomes: seq<Option<Dataset>>, f: string)
    requires |ids| == |outcomes|
    ensures CountOf(Tally(ids, outcomes).formatStats, f) == CountOf(InitialFormatStats, f) + multiset(SuccessFormats(outcomes))[f]
  {
    if ids != [] {
      var n := |ids| - 1;
      TallyFormatStats(ids[..n], outcomes[..n], f);
      if outcomes[n].Some? {
        CountFormatsAdds(Tally(ids[..n], outcomes[..n]).formatStats, outcomes[n].value.metadataDocuments, f);
      }
    }
  }

  /** The four formats always have a counter, even when nothing succeeds. */
  lemma {:induction false} TallyKeepsFormatKeys(ids: seq<string>, outcomes: seq<Option<Dataset>>)
    requires |ids| == |outcomes|
    ensures forall f :: f in InitialFormatStats ==> f in Tally(ids, outcomes).formatStats
  {
    if ids != [] {
      var n := |ids| - 1;
      TallyKeepsFormatKeys(ids[..n], outcomes[..n]);
      if outcomes[n].Some? {
        CountFormatsKeepsKeys(Tally(ids[..n], outcomes[..n]).formatStats, outcomes[n].value.metadataDocuments);
      }
    }
  }

  lemma {:induction false} CountFormatsKeepsKeys(m: map<string, nat>, docs: seq<MetadataDocument>)
    ensures m.Keys <= CountFormats(m, docs).Keys
  {
    if docs != [] {
      CountFormatsKeepsKeys(m, docs[..|docs| - 1]);
    }
  }

  /** One more turn of the loop. */
  lemma TallyStep(ids: seq<string>, outcomes: seq<Option<Dataset>>, i: nat, o: Option<Dataset>)
    requires i < |ids| && |outcomes| == i
    ensures Tally(ids[..i + 1], outcomes + [o]) == Record(Tally(ids[..i], outcomes), ids[i], o)
  {
    assert ids[..i + 1][..i] == ids[..i];
    assert (outcomes + [o])[..i] == outcomes;
  }

  /** The batch's step: `process_dataset` on one id and the session state it meets. */
  function StepOf(sources: string -> Sources, freshIds: string -> string)
    : (string, SessionState) -> (Option<Dataset>, SessionState)
  {
    (id: string, st: SessionState) => ProcessStep(id, sources(id), freshIds(id), st)
  }

  /**
   * A loop over the first `n` ids that runs `step` on each id and the state
   * the previous turn left: each id's outcome in order, and the final state.
   */
  function RunPrefix<S, O>(ids: seq<string>, step: (string, S) -> (O, S), s: S, n: nat): (r: (seq<O>, S))
    requires n <= |ids|
    ensures |r.0| == n
  {
    if n == 0 then ([], s)
    else
      var before := RunPrefix(ids, step, s, n - 1);
      var next := step(ids[n - 1], before.1);
      (before.0 + [next.0], next.1)
  }

  /** Outcome `i` of a run is what the step returns on the state the first `i` ids left. */
  lemma {:induction false} RunOutcomeAt<S, O>(ids: seq<string>, step: (string, S) -> (O, S), s: S, n: nat, i: nat)
    requires i < n <= |ids|
    ensures RunPrefix(ids, step, s, n).0[i] == step(ids[i], RunPrefix(ids, step, s, i).1).0
  {
    if i < n - 1 {
      RunOutcomeAt(ids, step, s, n - 1, i);
    }
  }

  /**
   * Id `i` of a batch counts as a success exactly when it commits on the
   * session the earlier ids left: something extracted, a fresh id, no
   * pending clash and the schema met; and a dataset is always the merge of
   * that id's extractions.
   */
  lemma RunSucceedsIff(ids: seq<string>, sources: string -> Sources, freshIds: string -> string,
                       s: SessionState, i: nat)
    requires i < |ids|
    ensures var outcomes := RunPrefix(ids, StepOf(sources, freshIds), s, |ids|).0;
      (outcomes[i].Some? <==> ProcessSucceeds(ids[i], sources(ids[i]), freshIds(ids[i]), RunPrefix(ids, StepOf(sources, freshIds), s, i).1))
      && ProcessOutcome(ids[i], sources(ids[i]), freshIds(ids[i]), outcomes[i])
  {
    RunOutcomeAt(ids, StepOf(sources, freshIds), s, |ids|, i);
  }

  /** Every commit of the batch meets the schema, so the committed tables stay valid throughout. */
  lemma {:induction false} RunKeepsSchema(ids: seq<string>, sources: string -> Sources, freshIds: string -> string,
                                          s: SessionState, n: nat)
    requires n <= |ids| && TableConstraints(s.committed)
    ensures TableConstraints(RunPrefix(ids, StepOf(sources, freshIds), s, n).1.committed)
  {
    if n > 0 {
      RunKeepsSchema(ids, sources, freshIds, s, n - 1);
      var before := RunPrefix(ids, StepOf(sources, freshIds), s, n - 1).1;
      var next := ProcessStep(ids[n - 1], sources(ids[n - 1]), freshIds(ids[n - 1]), before);
      assert RunPrefix(ids, StepOf(sources, freshIds), s, n).1 == next.1;
    }
  }

  /** One more turn of the loop keeps every outcome tied to its id. */
  lemma OutcomesStep(ids: seq<string>, outcomes: seq<Option<Dataset>>, sources: string -> Sources,
                     freshIds: string -> string, i: nat, o: Option<Dataset>)
    requires i < |ids| && |outcomes| == i
    requires forall k :: 0 <= k < i ==> ProcessOutcome(ids[k], sources(ids[k]), freshIds(ids[k]), outcomes[k])
    requires ProcessOutcome(ids[i], sources(ids[i]), freshIds(ids[i]), o)
    ensures forall k :: 0 <= k < i + 1 ==> ProcessOutcome(ids[k], sources(ids[k]), freshIds(ids[k]), (outcomes + [o])[k])
  {
    forall k | 0 <= k < i + 1
      ensures ProcessOutcome(ids[k], sources(ids[k]), freshIds(ids[k]), (outcomes + [o])[k])
    {
      if k < i {
        assert (outcomes + [o])[k] == outcomes[k];
      }
    }
  }

  // ---------------------------------------------------------- the driver

  /** `BatchProcessor`: the session and the pipeline are created on first use. */
  class Processor {
    const datasetIdsFile: Option<string>
    var session: Session?
    var pipeline: EtlPipeline?

    ghost predicate Valid()
      reads this, session
    {
      session != null ==> session.Valid()
    }

    constructor (datasetIdsFile: Option<string>)
      ensures Valid() && this.datasetIdsFile == datasetIdsFile && session == null && pipeline == null
    {
      this.datasetIdsFile := datasetIdsFile;
      session := null;
      pipeline := null;
    }

    /** `setup_database`: opens a session over the tables as stored. */
    method SetupDatabase(stored: map<string, DatasetRow>) returns (s: Session)
      requires TableConstraints(stored)
      modifies this
      ensures fresh(s) && session == s && pipeline == old(pipeline) && Valid()
      ensures s.rows == stored && s.committed == stored && !s.clash
    {
      s := new Session(stored);
      session := s;
    }

    /** `load_dataset_ids`: the named file, else the first fallback path that exists. */
    method LoadDatasetIds(files: Files) returns (r: Result<seq<string>>)
      ensures r == LoadSpec(datasetIdsFile, files)
    {
      var idsFile: Option<string> := None;
      if datasetIdsFile.Some? && datasetIdsFile.value != [] {
        if !files.pathExists(datasetIdsFile.value) {
          return Failed(NotFound);
        }
        idsFile := datasetIdsFile;
      } else {
        var i := 0;
        while i < |FallbackPaths|
          invariant 0 <= i <= |FallbackPaths|
          invariant idsFile.None? ==> FirstExisting(FallbackPaths, files) == FirstExisting(FallbackPaths[i..], files)
          invariant idsFile.Some? ==> idsFile == FirstExisting(FallbackPaths, files)
        {
          assert FallbackPaths[i..][1..] == FallbackPaths[i + 1..];
          if files.pathExists(FallbackPaths[i]) {
            idsFile := Some(FallbackPaths[i]);
            break;
          }
          i := i + 1;
        }
        if idsFile.None? {
          return Failed(NotFound);
        }
      }
      r := Ok(NonBlankLines(files.lines(idsFile.value)));
    }

    /** `if dataset_ids is None: dataset_ids = self.load_dataset_ids()`. */
    method ResolveIds(datasetIds: Option<seq<string>>, files: Files) returns (r: Result<seq<string>>)
      ensures datasetIds.Some? ==> r == Ok(datasetIds.value)
      ensures datasetIds.None? ==> r == LoadSpec(datasetIdsFile, files)
    {
      if datasetIds.None? {
        r := LoadDatasetIds(files);
      } else {
        r := Ok(datasetIds.value);
      }
    }

    /** The body of the loop of `process`: count a success with its documents' formats, or list a failure. */
    static method RecordOutcome(stats: Stats, id: string, dataset: Option<Dataset>) returns (updated: Stats)
      ensures updated == Record(stats, id, dataset)
    {
      updated := stats;
      if dataset.Some? {
        updated := updated.(successCount := updated.successCount + 1);
        var formatStats := CountDocumentFormats(updated.formatStats, dataset.value.metadataDocuments);
        updated := updated.(formatStats := formatStats);
      } else {
        updated := updated.(failCount := updated.failCount + 1, failedIds := updated.failedIds + [id]);
      }
    }

    /** The inner loop of `process`: one increment per document, keyed by its format. */
    static method CountDocumentFormats(m: map<string, nat>, docs: seq<MetadataDocument>) returns (formatStats: map<string, nat>)
      ensures formatStats == CountFormats(m, docs)
    {
      formatStats := m;
      var j := 0;
      while j < |docs|
        invariant 0 <= j <= |docs|
        invariant formatStats == CountFormats(m, docs[..j])
      {
        assert docs[..j + 1][..j] == docs[..j];
        formatStats := formatStats[docs[j].format := CountOf(formatStats, docs[j].format) + 1];
        j := j + 1;
      }
      assert docs[..j] == docs;
    }

    /**
     * `process`: loads the ids when none are given, opens the session on
     * first use, runs the pipeline on each id in order and counts the
     * outcomes; `outcomes` records what each call returned.
     */
    method Process(datasetIds: Option<seq<string>>, files: Files, stored: map<string, DatasetRow>,
                   sources: string -> Sources, freshIds: string -> string)
      returns (r: Result<Stats>, ghost outcomes: seq<Option<Dataset>>)
      requires Valid() && TableConstraints(stored)
      modifies this, session
      ensures Valid()
      ensures datasetIds.Some? ==> r.Ok?
      ensures r.Failed? ==> datasetIds.None? && LoadSpec(datasetIdsFile, files).Failed?
      ensures r.Failed? ==> r.reason == NotFound
      ensures r.Ok? ==> datasetIds.Some? || LoadSpec(datasetIdsFile, files).Ok?
      ensures r.Failed? ==> session == old(session) && pipeline == old(pipeline)
      ensures r.Ok? ==>
        var ids := if datasetIds.Some? then datasetIds.value else LoadSpec(datasetIdsFile, files).value;
        |outcomes| == |ids| && r.value == Tally(ids, outcomes)
        && forall i :: 0 <= i < |ids| ==> ProcessOutcome(ids[i], sources(ids[i]), freshIds(ids[i]), outcomes[i])
      ensures r.Ok? ==> session != null && pipeline != null && pipeline.session == session
      ensures r.Ok? && old(session) != null ==> session == old(session)
      ensures r.Ok? ==>
        var ids := if datasetIds.Some? then datasetIds.value else LoadSpec(datasetIdsFile, files).value;
        var start := if old(session) == null then SessionState(stored, stored, false) else old(session.State());
        (outcomes, session.State()) == RunPrefix(ids, StepOf(sources, freshIds), start, |ids|)
    {
      var loaded := ResolveIds(datasetIds, files);
      if loaded.Failed? {
        return Failed(loaded.reason), [];
      }
      var ids := loaded.value;

      if session == null {
        var _ := SetupDatabase(stored);
      }
      var s: Session := session;
      var p := new EtlPipeline(s);
      pipeline := p;

      var stats;
      stats, outcomes := RunPipeline(p, ids, sources, freshIds);
      r := Ok(stats);
    }

    /** The loop of `process`: the pipeline on each id in order, each outcome counted. */
    static method RunPipeline(p: EtlPipeline, ids: seq<string>, sources: string -> Sources, freshIds: string -> string)
      returns (stats: Stats, ghost outcomes: seq<Option<Dataset>>)
      requires p.Valid()
      modifies p.session
      ensures p.Valid()
      ensures |outcomes| == |ids| && stats == Tally(ids, outcomes)
      ensures forall i :: 0 <= i < |ids| ==> ProcessOutcome(ids[i], sources(ids[i]), freshIds(ids[i]), outcomes[i])
      ensures (outcomes, p.session.State()) == RunPrefix(ids, StepOf(sources, freshIds), old(p.session.State()), |ids|)
    {
      stats := InitialStats;
      outcomes := [];
      ghost var s0 := p.session.State();
      var i := 0;
      while i < |ids|
        invariant 0 <= i <= |ids| && |outcomes| == i
        invariant p.Valid()
        invariant stats == Tally(ids[..i], outcomes)
        invariant forall k :: 0 <= k < i ==> ProcessOutcome(ids[k], sources(ids[k]), freshIds(ids[k]), outcomes[k])
        invariant (outcomes, p.session.State()) == RunPrefix(ids, StepOf(sources, freshIds), s0, i)
      {
        var dataset := p.ProcessDataset(ids[i], sources(ids[i]), freshIds(ids[i]));
        TallyStep(ids, outcomes, i, dataset);
        OutcomesStep(ids, outcomes, sources, freshIds, i, dataset);
        stats := RecordOutcome(stats, ids[i], dataset);
        outcomes := outcomes + [dataset];
        i := i + 1;
      }
      assert ids[..i] == ids;
    }
  }
}
