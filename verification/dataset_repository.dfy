// backend/etl/repositories/dataset_repository.py: the mapping between the
// domain Dataset and its stored rows, and the add/get/update/delete
// operations over a session.

module DatasetRepository {
  import opened Common
  import opened JsonValue
  import opened EtlDateUtils
  import opened DatasetModel
  import opened DbSchema

  /** `str(v)` of a coordinate: the number's text, or "None" when it is absent. */
  function SpatialColumn(v: Option<NumText>): string {
    if v.Some? then v.value else "None"
  }

  /** The stored id: the dataset's own when it is non-empty, else a fresh one. */
  function DatasetIdOf(d: Dataset, freshId: string): string {
    if d.id.Some? && d.id.value != [] then d.id.value else freshId
  }

  function ContactRowOf(c: Contact, id: string): ContactRow {
    ContactRow(id, c.familyName, c.givenName, c.fullName, c.honorificPrefix, c.organizationName,
               c.organizationIdentifier, c.email, c.role, c.nameIdentifier, c.address)
  }

  function KeywordRowOf(k: Keyword, id: string): KeywordRow {
    KeywordRow(id, k.keyword, k.keywordType, k.uri, k.inDefinedTermSet)
  }

  function RelationshipRowOf(r: Relationship, id: string): RelationshipRow {
    RelationshipRow(id, r.relationType, r.targetDatasetId)
  }

  function ResourceRowOf(r: OnlineResource, id: string): ResourceRow {
    ResourceRow(id, r.url, r.name, r.description, r.resourceFunction, r.resourceType)
  }

  function DocumentRowOf(d: MetadataDocument, id: string): DocumentRow {
    DocumentRow(id, d.format, d.content, d.fileSize, d.downloadedAt)
  }

  /**
   * `_to_db_model` as a value: every scalar column, the extents when the
   * dataset has them, and one child row per contact, keyword,
   * relationship, resource and document, in order.
   */
  function RowOf(d: Dataset, id: string): DatasetRow {
    var s := d.spatialExtent;
    var t := d.temporalExtent;
    DatasetRow(
      id := id,
      fileIdentifier := d.fileIdentifier,
      title := d.title,
      abstractText := d.abstractText,
      description := d.description,
      lineage := d.lineage,
      publicationDate := d.publicationDate,
      metadataDate := d.metadataDate,
      updatedDate := d.updatedDate,
      metadataStandard := d.metadataStandard,
      metadataStandardVersion := d.metadataStandardVersion,
      language := d.language,
      resourceStatus := d.resourceStatus,
      resourceType := d.resourceType,
      spatialWest := if s.Some? then Some(SpatialColumn(s.value.west)) else None,
      spatialEast := if s.Some? then Some(SpatialColumn(s.value.east)) else None,
      spatialSouth := if s.Some? then Some(SpatialColumn(s.value.south)) else None,
      spatialNorth := if s.Some? then Some(SpatialColumn(s.value.north)) else None,
      temporalStart := if t.Some? then t.value.start else None,
      temporalEnd := if t.Some? then t.value.end else None,
      creditText := d.creditText,
      isAccessibleForFree := d.isAccessibleForFree,
      additionalMetadata := d.additionalMetadata,
      contacts := seq(|d.contacts|, k requires 0 <= k < |d.contacts| => ContactRowOf(d.contacts[k], id)),
      keywords := seq(|d.keywords|, k requires 0 <= k < |d.keywords| => KeywordRowOf(d.keywords[k], id)),
      relationships := seq(|d.relationships|, k requires 0 <= k < |d.relationships| =>
                             RelationshipRowOf(d.relationships[k], id)),
      onlineResources := seq(|d.onlineResources|, k requires 0 <= k < |d.onlineResources| =>
                               ResourceRowOf(d.onlineResources[k], id)),
      metadataDocuments := seq(|d.metadataDocuments|, k requires 0 <= k < |d.metadataDocuments| =>
                                 DocumentRowOf(d.metadataDocuments[k], id)))
  }

  /** `_to_db_model`: the parent row, then one loop per child collection. */
  method ToDbModel(d: Dataset, freshId: string) returns (row: DatasetRow)
    ensures row == RowOf(d, DatasetIdOf(d, freshId))
  {
    var id := if d.id.Some? && d.id.value != [] then d.id.value else freshId;
    row := DatasetRow(id, d.fileIdentifier, d.title, d.abstractText, d.description, d.lineage,
                      d.publicationDate, d.metadataDate, d.updatedDate, d.metadataStandard,
                      d.metadataStandardVersion, d.language, d.resourceStatus, d.resourceType,
                      None, None, None, None, None, None, d.creditText, d.isAccessibleForFree,
                      d.additionalMetadata, [], [], [], [], []);
    if d.spatialExtent.Some? {
      var s := d.spatialExtent.value;
      row := row.(spatialWest := Some(SpatialColumn(s.west)), spatialEast := Some(SpatialColumn(s.east)),
                  spatialSouth := Some(SpatialColumn(s.south)), spatialNorth := Some(SpatialColumn(s.north)));
    }
    if d.temporalExtent.Some? {
      row := row.(temporalStart := d.temporalExtent.value.start, temporalEnd := d.temporalExtent.value.end);
    }
    var contacts := ContactRows(d.contacts, id);
    var keywords := KeywordRows(d.keywords, id);
    var relationships := RelationshipRows(d.relationships, id);
    var resources := ResourceRows(d.onlineResources, id);
    var documents := DocumentRows(d.metadataDocuments, id);
    ghost var expected := RowOf(d, id);
    assert contacts == expected.contacts && keywords == expected.keywords;
    assert relationships == expected.relationships && resources == expected.onlineResources;
    assert documents == expected.metadataDocuments;
    row := row.(contacts := contacts, keywords := keywords, relationships := relationships,
                onlineResources := resources, metadataDocuments := documents);
  }
  /** The contact loop of `_to_db_model`: one row per contact, in order, pointing at `id`. */
  method ContactRows(xs: seq<Contact>, id: string) returns (rows: seq<ContactRow>)
    ensures |rows| == |xs| && forall k :: 0 <= k < |xs| ==> rows[k] == ContactRowOf(xs[k], id)
  {
    rows := [];
    var i := 0;
    while i < |xs|
      invariant i <= |xs| && |rows| == i
      invariant forall k :: 0 <= k < i ==> rows[k] == ContactRowOf(xs[k], id)
    {
      rows := rows + [ContactRowOf(xs[i], id)];
      i := i + 1;
    }
  }

  /** The keyword loop of `_to_db_model`: one row per keyword, in order, pointing at `id`. */
  method KeywordRows(xs: seq<Keyword>, id: string) returns (rows: seq<KeywordRow>)
    ensures |rows| == |xs| && forall k :: 0 <= k < |xs| ==> rows[k] == KeywordRowOf(xs[k], id)
  {
    rows := [];
    var i := 0;
    while i < |xs|
      invariant i <= |xs| && |rows| == i
      invariant forall k :: 0 <= k < i ==> rows[k] == KeywordRowOf(xs[k], id)
    {
      rows := rows + [KeywordRowOf(xs[i], id)];
      i := i + 1;
    }
  }

  /** The relationship loop of `_to_db_model`: one row per relationship, in order, pointing at `id`. */
  method RelationshipRows(xs: seq<Relationship>, id: string) returns (rows: seq<RelationshipRow>)
    ensures |rows| == |xs| && forall k :: 0 <= k < |xs| ==> rows[k] == RelationshipRowOf(xs[k], id)
  {
    rows := [];
    var i := 0;
    while i < |xs|
      invariant i <= |xs| && |rows| == i
      invariant forall k :: 0 <= k < i ==> rows[k] == RelationshipRowOf(xs[k], id)
    {
      rows := rows + [RelationshipRowOf(xs[i], id)];
      i := i + 1;
    }
  }

  /** The online resource loop of `_to_db_model`: one row per online resource, in order, pointing at `id`. */
  method ResourceRows(xs: seq<OnlineResource>, id: string) returns (rows: seq<ResourceRow>)
    ensures |rows| == |xs| && forall k :: 0 <= k < |xs| ==> rows[k] == ResourceRowOf(xs[k], id)
  {
    rows := [];
    var i := 0;
    while i < |xs|
      invariant i <= |xs| && |rows| == i
      invariant forall k :: 0 <= k < i ==> rows[k] == ResourceRowOf(xs[k], id)
    {
      rows := rows + [ResourceRowOf(xs[i], id)];
      i := i + 1;
    }
  }

  /** The metadata document loop of `_to_db_model`: one row per metadata document, in order, pointing at `id`. */
  method DocumentRows(xs: seq<MetadataDocument>, id: string) returns (rows: seq<DocumentRow>)
    ensures |rows| == |xs| && forall k :: 0 <= k < |xs| ==> rows[k] == DocumentRowOf(xs[k], id)
  {
    rows := [];
    var i := 0;
    while i < |xs|
      invariant i <= |xs| && |rows| == i
      invariant forall k :: 0 <= k < i ==> rows[k] == DocumentRowOf(xs[k], id)
    {
      rows := rows + [DocumentRowOf(xs[i], id)];
      i := i + 1;
    }
  }


  /** Every child row points at its parent, and there is one per element of the dataset. */
  lemma ChildRowsPerElement(d: Dataset, id: string)
    ensures var row := RowOf(d, id);
      row.id == id
      && |row.contacts| == |d.contacts| && |row.keywords| == |d.keywords|
      && |row.relationships| == |d.relationships| && |row.onlineResources| == |d.onlineResources|
      && |row.metadataDocuments| == |d.metadataDocuments|
      && (forall k :: 0 <= k < |row.contacts| ==> row.contacts[k].datasetId == id && row.contacts[k].role == d.contacts[k].role)
      && (forall k :: 0 <= k < |row.keywords| ==> row.keywords[k].datasetId == id && row.keywords[k].keyword == d.keywords[k].keyword)
      && (forall k :: 0 <= k < |row.relationships| ==> row.relationships[k].sourceDatasetId == id)
      && (forall k :: 0 <= k < |row.onlineResources| ==> row.onlineResources[k].datasetId == id)
      && (forall k :: 0 <= k < |row.metadataDocuments| ==> row.metadataDocuments[k].datasetId == id
                                                           && row.metadataDocuments[k].format == d.metadataDocuments[k].format)
  {
  }

  // ------------------------------------------------------------ read back

  /**
   * `float(column)` on the four stored bounds, once `spatial_west` is a
   * non-empty text. A NULL bound or a text `float` rejects raises.
   */
  function SpatialBack(row: DatasetRow, isFloat: string -> bool): Result<Option<SpatialExtent>> {
    if row.spatialWest.None? || row.spatialWest.value == [] then Ok(None)
    else if row.spatialEast.None? || row.spatialSouth.None? || row.spatialNorth.None? then Failed(Raised)
    else if !(isFloat(row.spatialWest.value) && isFloat(row.spatialEast.value)
              && isFloat(row.spatialSouth.value) && isFloat(row.spatialNorth.value)) then Failed(Raised)
    else Ok(Some(SpatialExtent(row.spatialWest, row.spatialEast, row.spatialSouth, row.spatialNorth)))
  }

  /** `_to_domain_model`. Contacts come back without position and individual name, keywords without thesaurus. */
  function ToDomainModel(row: DatasetRow, isFloat: string -> bool): Result<Dataset> {
    var spatial := SpatialBack(row, isFloat);
    if spatial.Failed? then Failed(spatial.reason)
    else Ok(Dataset(
      fileIdentifier := row.fileIdentifier,
      title := row.title,
      abstractText := row.abstractText,
      description := row.description,
      lineage := row.lineage,
      publicationDate := row.publicationDate,
      metadataDate := row.metadataDate,
      updatedDate := row.updatedDate,
      metadataStandard := row.metadataStandard,
      metadataStandardVersion := row.metadataStandardVersion,
      language := row.language,
      resourceStatus := row.resourceStatus,
      resourceType := row.resourceType,
      spatialExtent := spatial.value,
      temporalExtent := if row.temporalStart.Some? then Some(TemporalExtent(row.temporalStart, row.temporalEnd)) else None,
      creditText := row.creditText,
      isAccessibleForFree := row.isAccessibleForFree,
      contacts := seq(|row.contacts|, k requires 0 <= k < |row.contacts| =>
        var c := row.contacts[k];
        Contact(c.role, c.familyName, c.givenName, c.fullName, c.honorificPrefix, c.organizationName,
                c.organizationIdentifier, c.email, c.nameIdentifier, c.address, None, None)),
      keywords := seq(|row.keywords|, k requires 0 <= k < |row.keywords| =>
        var w := row.keywords[k];
        Keyword(w.keyword, w.keywordType, w.uri, w.inDefinedTermSet, None)),
      relationships := seq(|row.relationships|, k requires 0 <= k < |row.relationships| =>
        Relationship(row.relationships[k].relationType, row.relationships[k].targetDatasetId)),
      onlineResources := seq(|row.onlineResources|, k requires 0 <= k < |row.onlineResources| =>
        var r := row.onlineResources[k];
        OnlineResource(r.url, r.name, r.description, r.resourceFunction, r.resourceType)),
      metadataDocuments := seq(|row.metadataDocuments|, k requires 0 <= k < |row.metadataDocuments| =>
        var m := row.metadataDocuments[k];
        MetadataDocument(m.format, m.content, m.fileSize, m.downloadedAt)),
      additionalMetadata := row.additionalMetadata,
      purpose := None,
      creationDate := None,
      id := Some(row.id)))
  }

  /** A spatial extent that survives storage: all four bounds, each a non-empty number text. */
  predicate SpatialStorable(d: Dataset, isFloat: string -> bool) {
    var s := d.spatialExtent;
    s.None? || (s.value.west.Some? && s.value.west.value != [] && isFloat(s.value.west.value)
                && s.value.east.Some? && isFloat(s.value.east.value)
                && s.value.south.Some? && isFloat(s.value.south.value)
                && s.value.north.Some? && isFloat(s.value.north.value))
  }

  /**
   * What a store-and-read-back keeps of a dataset: the stored id; no
   * purpose or creation date; contacts without position and individual
   * name; keywords without thesaurus; a temporal extent only when it has
   * a start.
   */
  function Kept(d: Dataset, id: string): Dataset {
    var t := d.temporalExtent;
    d.(id := Some(id), purpose := None, creationDate := None,
       temporalExtent := if t.Some? && t.value.start.Some? then t else None,
       contacts := seq(|d.contacts|, k requires 0 <= k < |d.contacts| =>
                         d.contacts[k].(positionName := None, individualName := None)),
       keywords := seq(|d.keywords|, k requires 0 <= k < |d.keywords| => d.keywords[k].(thesaurus := None)))
  }

  /** Reading back a stored dataset gives exactly what `Kept` says is kept. */
  lemma RoundTripIsLossy(d: Dataset, id: string, isFloat: string -> bool)
    requires SpatialStorable(d, isFloat)
    ensures ToDomainModel(RowOf(d, id), isFloat) == Ok(Kept(d, id))
  {
    var back := ToDomainModel(RowOf(d, id), isFloat).value;
    var kept := Kept(d, id);
    assert back.contacts == kept.contacts;
    assert back.keywords == kept.keywords;
    assert back.relationships == kept.relationships;
    assert back.onlineResources == kept.onlineResources;
    assert back.metadataDocuments == kept.metadataDocuments;
  }

  /** A temporal extent with only an end date does not come back. */
  lemma EndOnlyTemporalLost(d: Dataset, id: string, isFloat: string -> bool, end: Date)
    requires d.temporalExtent == Some(TemporalExtent(None, Some(end)))
    requires ToDomainModel(RowOf(d, id), isFloat).Ok?
    ensures ToDomainModel(RowOf(d, id), isFloat).value.temporalExtent.None?
    ensures RowOf(d, id).temporalEnd == Some(end)
  {
  }

  /**
   * A spatial extent with a missing bound is stored with the text "None",
   * which `float` rejects, so reading the dataset back raises.
   */
  lemma MissingBoundBreaksReadBack(d: Dataset, id: string, isFloat: string -> bool)
    requires !isFloat("None")
    requires d.spatialExtent.Some?
    requires var s := d.spatialExtent.value; s.west.None? || s.east.None? || s.south.None? || s.north.None?
    requires d.spatialExtent.value.west.Some? ==> d.spatialExtent.value.west.value != []
    ensures ToDomainModel(RowOf(d, id), isFloat).Failed?
  {
  }

  // --------------------------------------------------------------- update

  /**
   * `_update_db_model`'s effect on a row: every scalar column is
   * overwritten; the extent columns only when the dataset has that extent;
   * the id and the child rows are left as they are.
   */
  predicate UpdatedFrom(row: DatasetRow, d: Dataset, updated: DatasetRow) {
    && updated.id == row.id
    && updated.contacts == row.contacts && updated.keywords == row.keywords
    && updated.relationships == row.relationships && updated.onlineResources == row.onlineResources
    && updated.metadataDocuments == row.metadataDocuments
    && updated.fileIdentifier == d.fileIdentifier && updated.title == d.title
    && updated.abstractText == d.abstractText && updated.description == d.description
    && updated.lineage == d.lineage && updated.publicationDate == d.publicationDate
    && updated.metadataDate == d.metadataDate && updated.updatedDate == d.updatedDate
    && updated.metadataStandard == d.metadataStandard
    && updated.metadataStandardVersion == d.metadataStandardVersion
    && updated.language == d.language && updated.resourceStatus == d.resourceStatus
    && updated.resourceType == d.resourceType && updated.creditText == d.creditText
    && updated.isAccessibleForFree == d.isAccessibleForFree
    && updated.additionalMetadata == d.additionalMetadata
    && (d.spatialExtent.None? ==>
          updated.spatialWest == row.spatialWest && updated.spatialEast == row.spatialEast
          && updated.spatialSouth == row.spatialSouth && updated.spatialNorth == row.spatialNorth)
    && (d.spatialExtent.Some? ==>
          var s := d.spatialExtent.value;
          updated.spatialWest == Some(SpatialColumn(s.west)) && updated.spatialEast == Some(SpatialColumn(s.east))
          && updated.spatialSouth == Some(SpatialColumn(s.south)) && updated.spatialNorth == Some(SpatialColumn(s.north)))
    && (d.temporalExtent.None? ==> updated.temporalStart == row.temporalStart && updated.temporalEnd == row.temporalEnd)
    && (d.temporalExtent.Some? ==>
          updated.temporalStart == d.temporalExtent.value.start && updated.temporalEnd == d.temporalExtent.value.end)
  }

  /** `_update_db_model`: the attribute assignments, one after another. */
  method UpdateDbModel(row: DatasetRow, d: Dataset) returns (updated: DatasetRow)
    ensures UpdatedFrom(row, d, updated)
  {
    updated := row.(fileIdentifier := d.fileIdentifier, title := d.title, abstractText := d.abstractText,
                    description := d.description, lineage := d.lineage, publicationDate := d.publicationDate,
                    metadataDate := d.metadataDate, updatedDate := d.updatedDate,
                    metadataStandard := d.metadataStandard, metadataStandardVersion := d.metadataStandardVersion,
                    language := d.language, resourceStatus := d.resourceStatus, resourceType := d.resourceType,
                    creditText := d.creditText, isAccessibleForFree := d.isAccessibleForFree,
                    additionalMetadata := d.additionalMetadata);
    if d.spatialExtent.Some? {
      var s := d.spatialExtent.value;
      updated := updated.(spatialWest := Some(SpatialColumn(s.west)), spatialEast := Some(SpatialColumn(s.east)),
                          spatialSouth := Some(SpatialColumn(s.south)), spatialNorth := Some(SpatialColumn(s.north)));
    }
    if d.temporalExtent.Some? {
      updated := updated.(temporalStart := d.temporalExtent.value.start, temporalEnd := d.temporalExtent.value.end);
    }
  }

  // ----------------------------------------------------------- repository

  class Repository {
    const session: Session

    constructor (session: Session)
      ensures this.session == session
    {
      this.session := session;
    }

    /**
     * `add`: the dataset is stored under its own id, or under `freshId`
     * when it has none, and comes back carrying that id.
     */
    method Add(d: Dataset, freshId: string) returns (stored: Dataset)
      requires session.Valid()
      modifies session
      ensures session.Valid()
      ensures stored == d.(id := Some(DatasetIdOf(d, freshId)))
      ensures session.committed == old(session.committed)
      ensures DatasetIdOf(d, freshId) !in old(session.rows) ==>
        session.rows == old(session.rows)[DatasetIdOf(d, freshId) := RowOf(d, DatasetIdOf(d, freshId))]
        && session.clash == old(session.clash)
      ensures DatasetIdOf(d, freshId) in old(session.rows) ==> session.rows == old(session.rows) && session.clash
    {
      var row := ToDbModel(d, freshId);
      session.Add(row);
      stored := d.(id := Some(row.id));
    }

    /** `get_by_id`: None for an unknown id; reading a row back may raise. */
    method GetById(id: string, isFloat: string -> bool) returns (r: Result<Option<Dataset>>)
      requires session.Valid()
      ensures id !in session.rows ==> r == Ok(None)
      ensures id in session.rows && ToDomainModel(session.rows[id], isFloat).Ok? ==>
        r == Ok(Some(ToDomainModel(session.rows[id], isFloat).value))
      ensures id in session.rows && ToDomainModel(session.rows[id], isFloat).Failed? ==> r.Failed?
      ensures r.Ok? && r.value.Some? ==> r.value.value.id == Some(id)
    {
      if id !in session.rows {
        return Ok(None);
      }
      var back := ToDomainModel(session.rows[id], isFloat);
      if back.Failed? {
        return Failed(back.reason);
      }
      return Ok(Some(back.value));
    }

    /**
     * `update`: a dataset whose id has no row raises ValueError and
     * changes nothing; otherwise its row is overwritten by `_update_db_model`.
     */
    method Update(d: Dataset) returns (r: Result<Dataset>)
      requires session.Valid()
      modifies session
      ensures session.Valid()
      ensures session.committed == old(session.committed) && session.clash == old(session.clash)
      ensures r.Failed? <==> d.id.None? || d.id.value !in old(session.rows)
      ensures r.Failed? ==> session.rows == old(session.rows)
      ensures r.Ok? ==> r.value == d && session.rows.Keys == old(session.rows).Keys
      ensures r.Ok? ==> forall k :: k in session.rows && k != d.id.value ==> session.rows[k] == old(session.rows)[k]
      ensures r.Ok? ==> UpdatedFrom(old(session.rows)[d.id.value], d, session.rows[d.id.value])
    {
      if d.id.None? || d.id.value !in session.rows {
        return Failed(Invalid);
      }
      var id := d.id.value;
      var updated := UpdateDbModel(session.rows[id], d);
      session.Put(updated);
      return Ok(d);
    }

    /** `delete`: true exactly when a row with that id existed, which is then gone. */
    method Delete(id: string) returns (existed: bool)
      requires session.Valid()
      modifies session
      ensures session.Valid()
      ensures existed <==> id in old(session.rows)
      ensures session.rows == old(session.rows) - {id}
      ensures session.committed == old(session.committed)
    {
      existed := id in session.rows;
      if existed {
        session.Delete(id);
      }
    }
  }
}
