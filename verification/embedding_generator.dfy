// backend/embeddings/generator.py: turns each stored dataset into a text,
// encodes the texts, and saves the vectors, a slot-by-slot metadata
// snapshot and one `embeddings` row per dataset.

module EmbeddingGenerator {
  import opened Common
  import opened Strings
  import opened DbSchema

  /** An embedding vector; its entries are the encoder's and are never inspected. */
  type Vector = seq<real>

  /** A loaded sentence-transformer: its name and what it makes of a text. */
  datatype EncoderModel = EncoderModel(name: string, encode: string -> Vector)

  /** The text-combination switches of the embedding configuration. */
  datatype TextConfig = TextConfig(includeTitle: bool, includeAbstract: bool, includeLineage: bool)

  const DefaultTextConfig: TextConfig := TextConfig(true, true, false)
  const ModelName: string := "all-MiniLM-L6-v2"
  const SnippetLength: nat := 300
  const Separator: string := ". "

  /** A row of `SELECT id, file_identifier, title, abstract, lineage FROM datasets`. */
  datatype DatasetSummary = DatasetSummary(
    id: string,
    fileIdentifier: string,
    title: Option<string>,
    abstractText: Option<string>,
    lineage: Option<string>)

  /** The parts `get_dataset_text` collects: title, abstract, lineage, each when switched on and truthy. */
  function TextParts(d: DatasetSummary, cfg: TextConfig): (parts: seq<string>)
    ensures |parts| <= 3
    ensures forall k :: 0 <= k < |parts| ==> parts[k] != []
    ensures parts == [] <==>
      !(cfg.includeTitle && Present(d.title)) && !(cfg.includeAbstract && Present(d.abstractText))
      && !(cfg.includeLineage && Present(d.lineage))
  {
    (if cfg.includeTitle && Present(d.title) then [d.title.value] else [])
    + (if cfg.includeAbstract && Present(d.abstractText) then [d.abstractText.value] else [])
    + (if cfg.includeLineage && Present(d.lineage) then [d.lineage.value] else [])
  }

  /** `get_dataset_text`: the parts joined with ". ". */
  function DatasetText(d: DatasetSummary, cfg: TextConfig): string {
    Join(Separator, TextParts(d, cfg))
  }

  /** Joining non-empty parts gives the empty text only for no parts, and starts with the first part. */
  lemma {:induction false} JoinNonEmpty(parts: seq<string>)
    requires forall k :: 0 <= k < |parts| ==> parts[k] != []
    ensures Join(Separator, parts) == [] <==> parts == []
    ensures parts != [] ==> StartsWith(Join(Separator, parts), parts[0])
  {
    if |parts| > 1 {
      var rest := Join(Separator, parts[1..]);
      assert Join(Separator, parts) == parts[0] + Separator + rest;
      assert Join(Separator, parts)[..|parts[0]|] == parts[0];
    }
  }

  /** The text is empty exactly when every included field is falsy. */
  lemma DatasetTextEmptyIff(d: DatasetSummary, cfg: TextConfig)
    ensures DatasetText(d, cfg) == [] <==>
      !(cfg.includeTitle && Present(d.title)) && !(cfg.includeAbstract && Present(d.abstractText))
      && !(cfg.includeLineage && Present(d.lineage))
  {
    JoinNonEmpty(TextParts(d, cfg));
  }

  /** An included, truthy title leads the text. */
  lemma DatasetTextStartsWithTitle(d: DatasetSummary, cfg: TextConfig)
    requires cfg.includeTitle && Present(d.title)
    ensures StartsWith(DatasetText(d, cfg), d.title.value)
  {
    JoinNonEmpty(TextParts(d, cfg));
  }

  /** With the default switches, a dataset with a title and an abstract reads "title. abstract", whatever its lineage. */
  lemma DefaultTextIsTitleThenAbstract(d: DatasetSummary)
    requires Present(d.title) && Present(d.abstractText)
    ensures DatasetText(d, DefaultTextConfig) == d.title.value + ". " + d.abstractText.value
  {
    var parts := TextParts(d, DefaultTextConfig);
    assert parts == [d.title.value, d.abstractText.value];
    assert parts[1..] == [d.abstractText.value];
    assert Join(Separator, parts[1..]) == d.abstractText.value;
    assert Join(Separator, parts) == parts[0] + Separator + Join(Separator, parts[1..]);
  }

  // -------------------------------------------------------------- snapshot

  /** One `metadata` entry of the snapshot. */
  datatype SnapshotEntry = SnapshotEntry(id: string, fileIdentifier: string, title: Option<string>, abstractText: Option<string>)

  /** The pickled mapping from index slot to dataset. */
  datatype Snapshot = Snapshot(
    datasetIds: seq<string>,
    fileIdentifiers: seq<string>,
    metadata: seq<SnapshotEntry>,
    modelName: string,
    totalDatasets: nat)

  /** `d['abstract'][:300] if d['abstract'] else None`. */
  function Snippet(s: Option<string>): (r: Option<string>)
    ensures r.None? <==> !Present(s)
    ensures r.Some? ==> |r.value| <= SnippetLength && StartsWith(s.value, r.value)
    ensures r.Some? && |s.value| <= SnippetLength ==> r == s
  {
    if !Present(s) then None
    else if |s.value| <= SnippetLength then s
    else Some(s.value[..SnippetLength])
  }

  /**
   * `save_metadata`'s snapshot: slot `i` of the id list, the identifier
   * list and the metadata list all describe `datasets[i]`.
   */
  function SnapshotOf(datasets: seq<DatasetSummary>, modelName: string): (snap: Snapshot)
    ensures |snap.datasetIds| == |datasets| && |snap.fileIdentifiers| == |datasets| && |snap.metadata| == |datasets|
    ensures snap.totalDatasets == |datasets| && snap.modelName == modelName
    ensures forall i :: 0 <= i < |datasets| ==>
      snap.datasetIds[i] == datasets[i].id && snap.metadata[i].id == datasets[i].id
      && snap.fileIdentifiers[i] == datasets[i].fileIdentifier && snap.metadata[i].fileIdentifier == datasets[i].fileIdentifier
      && snap.metadata[i].title == datasets[i].title && snap.metadata[i].abstractText == Snippet(datasets[i].abstractText)
  {
    Snapshot(
      seq(|datasets|, i requires 0 <= i < |datasets| => datasets[i].id),
      seq(|datasets|, i requires 0 <= i < |datasets| => datasets[i].fileIdentifier),
      seq(|datasets|, i requires 0 <= i < |datasets| =>
        SnapshotEntry(datasets[i].id, datasets[i].fileIdentifier, datasets[i].title, Snippet(datasets[i].abstractText))),
      modelName,
      |datasets|)
  }

  // -------------------------------------------------------- embedding rows

  /** The `embeddings` table. */
  class EmbeddingTable {
    var rows: seq<EmbeddingRow>

    constructor (rows: seq<EmbeddingRow>)
      ensures this.rows == rows
    {
      this.rows := rows;
    }
  }

  /** One row per `zip(datasets, embeddings)` pair: the dataset id, the model name and the vector's length. */
  function EmbeddingRows(datasets: seq<DatasetSummary>, embeddings: seq<Vector>): (rows: seq<EmbeddingRow>)
    ensures |rows| == Min(|datasets|, |embeddings|)
    ensures forall i :: 0 <= i < |rows| ==>
      rows[i].datasetId == datasets[i].id && rows[i].embeddingModel == Some(ModelName)
      && rows[i].embeddingDimension == Some(|embeddings[i]|)
  {
    seq(Min(|datasets|, |embeddings|), i requires 0 <= i < Min(|datasets|, |embeddings|) =>
      EmbeddingRow(datasets[i].id, Some(ModelName), Some(|embeddings[i]|)))
  }

  /** The vectors of the datasets' texts, in dataset order. */
  function Encoded(model: EncoderModel, datasets: seq<DatasetSummary>): (vs: seq<Vector>)
    ensures |vs| == |datasets|
    ensures forall i :: 0 <= i < |datasets| ==> vs[i] == model.encode(DatasetText(datasets[i], DefaultTextConfig))
  {
    seq(|datasets|, i requires 0 <= i < |datasets| => model.encode(DatasetText(datasets[i], DefaultTextConfig)))
  }

  /** What `generate_all` reports. */
  datatype GenerationResult =
    | Generated(totalDatasets: nat, embeddingDimension: nat, modelName: string)
    | NoDatasets

  /**
   * `EmbeddingGenerator`, with what it writes: the model is loaded once,
   * `snapshot` is the saved metadata file and `index` the vectors of the
   * saved index, slot by slot.
   */
  class Generator {
    var model: Option<EncoderModel>
    var snapshot: Option<Snapshot>
    var index: Option<seq<Vector>>

    constructor ()
      ensures model.None? && snapshot.None? && index.None?
    {
      model, snapshot, index := None, None, None;
    }

    /** `load_model`: loads only while unset; later calls return the same model. */
    method LoadModel(load: string -> EncoderModel) returns (m: EncoderModel)
      modifies this
      ensures old(model).Some? ==> model == old(model) && m == old(model).value
      ensures old(model).None? ==> model == Some(load(ModelName)) && m == load(ModelName)
      ensures snapshot == old(snapshot) && index == old(index)
    {
      if model.None? {
        model := Some(load(ModelName));
      }
      m := model.value;
    }

    /** `update_database`: clears the table, then inserts one row per dataset and vector. */
    method UpdateDatabase(table: EmbeddingTable, datasets: seq<DatasetSummary>, embeddings: seq<Vector>)
      modifies table
      ensures table.rows == EmbeddingRows(datasets, embeddings)
    {
      table.rows := [];
      var n := Min(|datasets|, |embeddings|);
      var i := 0;
      while i < n
        invariant 0 <= i <= n
        invariant table.rows == EmbeddingRows(datasets[..i], embeddings[..i])
      {
        table.rows := table.rows + [EmbeddingRow(datasets[i].id, Some(ModelName), Some(|embeddings[i]|))];
        i := i + 1;
      }
      assert EmbeddingRows(datasets[..i], embeddings[..i]) == EmbeddingRows(datasets, embeddings);
    }

    /**
     * `generate_all`: with no datasets, report the failure and write
     * nothing; otherwise encode every text, save the index and the
     * snapshot, and rebuild the embedding rows.
     */
    method GenerateAll(fetched: seq<DatasetSummary>, load: string -> EncoderModel, table: EmbeddingTable)
      returns (r: GenerationResult)
      modifies this, table
      ensures fetched == [] ==> r == NoDatasets && unchanged(this) && unchanged(table)
      ensures fetched != [] ==>
        model.Some? && r.Generated? && r.totalDatasets == |fetched| && r.modelName == ModelName
        && index == Some(Encoded(model.value, fetched))
        && snapshot == Some(SnapshotOf(fetched, ModelName))
        && table.rows == EmbeddingRows(fetched, Encoded(model.value, fetched))
      ensures old(model).Some? ==> model == old(model)
    {
      if fetched == [] {
        return NoDatasets;
      }
      var m := LoadModel(load);
      var texts := seq(|fetched|, i requires 0 <= i < |fetched| => DatasetText(fetched[i], DefaultTextConfig));
      var embeddings := seq(|texts|, i requires 0 <= i < |texts| => m.encode(texts[i]));
      assert embeddings == Encoded(m, fetched);
      index := Some(embeddings);
      snapshot := Some(SnapshotOf(fetched, ModelName));
      UpdateDatabase(table, fetched, embeddings);
      r := Generated(|fetched|, |embeddings[0]|, ModelName);
    }
  }
}
