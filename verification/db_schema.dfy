// backend/etl/models/database.py: the stored rows, and the unit of work
// the repository writes through. Only what the schema constrains is kept:
// the keys, the NOT NULL columns and the unique file identifier.

module DbSchema {
  import opened Common
  import opened JsonValue
  import opened EtlDateUtils

  datatype ContactRow = ContactRow(
    datasetId: string,
    familyName: Option<string>,
    givenName: Option<string>,
    fullName: Option<string>,
    honorificPrefix: Option<string>,
    organizationName: Option<string>,
    organizationIdentifier: Option<string>,
    email: Option<string>,
    role: string,
    nameIdentifier: Option<string>,
    address: Option<Json>)

  datatype KeywordRow = KeywordRow(
    datasetId: string,
    keyword: string,
    keywordType: Option<string>,
    uri: Option<string>,
    inDefinedTermSet: Option<string>)

  datatype RelationshipRow = RelationshipRow(
    sourceDatasetId: string,
    relationType: string,
    targetDatasetId: Option<string>)

  datatype ResourceRow = ResourceRow(
    datasetId: string,
    url: Option<string>,
    name: Option<string>,
    description: Option<string>,
    resourceFunction: Option<string>,
    resourceType: Option<string>)

  datatype DocumentRow = DocumentRow(
    datasetId: string,
    format: string,
    content: string,
    fileSize: int,
    downloadedAt: Option<DateTime>)

  /** One `datasets` row together with its child rows, in insertion order. */
  datatype DatasetRow = DatasetRow(
    id: string,
    fileIdentifier: string,
    title: Option<string>,
    abstractText: Option<string>,
    description: Option<string>,
    lineage: Option<string>,
    publicationDate: Option<Date>,
    metadataDate: Option<DateTime>,
    updatedDate: Option<Date>,
    metadataStandard: Option<string>,
    metadataStandardVersion: Option<string>,
    language: Option<string>,
    resourceStatus: Option<string>,
    resourceType: Option<string>,
    spatialWest: Option<string>,
    spatialEast: Option<string>,
    spatialSouth: Option<string>,
    spatialNorth: Option<string>,
    temporalStart: Option<Date>,
    temporalEnd: Option<Date>,
    creditText: Option<string>,
    isAccessibleForFree: Option<BooleanBind>,
    additionalMetadata: Option<map<string, Json>>,
    contacts: seq<ContactRow>,
    keywords: seq<KeywordRow>,
    relationships: seq<RelationshipRow>,
    onlineResources: seq<ResourceRow>,
    metadataDocuments: seq<DocumentRow>)

  /** An `embeddings` row. */
  datatype EmbeddingRow = EmbeddingRow(datasetId: string, embeddingModel: Option<string>, embeddingDimension: Option<int>)

  /**
   * The NOT NULL columns of a row and its children, a flag the Boolean
   * column can bind, and the children's foreign keys.
   */
  predicate RowConstraints(row: DatasetRow) {
    row.title.Some?
    && row.isAccessibleForFree != Some(Refused)
    && (forall k :: 0 <= k < |row.contacts| ==> row.contacts[k].datasetId == row.id)
    && (forall k :: 0 <= k < |row.keywords| ==> row.keywords[k].datasetId == row.id)
    && (forall k :: 0 <= k < |row.relationships| ==>
          row.relationships[k].sourceDatasetId == row.id && row.relationships[k].targetDatasetId.Some?)
    && (forall k :: 0 <= k < |row.onlineResources| ==>
          row.onlineResources[k].datasetId == row.id && row.onlineResources[k].url.Some?)
    && (forall k :: 0 <= k < |row.metadataDocuments| ==> row.metadataDocuments[k].datasetId == row.id)
  }

  /** A table keyed by primary key whose rows meet the schema and whose file identifiers are unique. */
  predicate TableConstraints(rows: map<string, DatasetRow>) {
    (forall id :: id in rows ==> rows[id].id == id && RowConstraints(rows[id]))
    && forall a, b :: a in rows && b in rows && rows[a].fileIdentifier == rows[b].fileIdentifier ==> a == b
  }

  /** A session's rows, its last commit and whether a clash is pending, as one value. */
  datatype SessionState = SessionState(rows: map<string, DatasetRow>, committed: map<string, DatasetRow>, clash: bool)

  /**
   * The database session: `rows` is what queries in the session see,
   * `committed` the state of the last commit. Adding a row whose key is
   * already taken makes the next flush fail.
   */
  class Session {
    var rows: map<string, DatasetRow>
    var committed: map<string, DatasetRow>
    var clash: bool

    /** The last commit met the schema, and every pending row sits under its own id. */
    ghost predicate Valid()
      reads this
    {
      TableConstraints(committed) && forall id :: id in rows ==> rows[id].id == id
    }

    function State(): SessionState
      reads this
    {
      SessionState(rows, committed, clash)
    }

    constructor (initial: map<string, DatasetRow>)
      requires TableConstraints(initial)
      ensures Valid() && rows == initial && committed == initial && !clash
    {
      rows := initial;
      committed := initial;
      clash := false;
    }

    /** `session.add` of a new row. */
    method Add(row: DatasetRow)
      requires Valid()
      modifies this
      ensures Valid()
      ensures committed == old(committed)
      ensures row.id in old(rows) ==> rows == old(rows) && clash
      ensures row.id !in old(rows) ==> rows == old(rows)[row.id := row] && clash == old(clash)
    {
      if row.id in rows {
        clash := true;
      } else {
        rows := rows[row.id := row];
      }
    }

    /** `session.delete`. */
    method Delete(id: string)
      requires Valid()
      modifies this
      ensures Valid()
      ensures rows == old(rows) - {id} && committed == old(committed) && clash == old(clash)
    {
      rows := rows - {id};
    }

    /** Changing a row already in the session. */
    method Put(row: DatasetRow)
      requires Valid() && row.id in rows
      modifies this
      ensures Valid()
      ensures rows == old(rows)[row.id := row] && committed == old(committed) && clash == old(clash)
    {
      rows := rows[row.id := row];
    }

    /**
     * `session.commit`: succeeds when the pending rows meet the schema and
     * no key clashed; otherwise it raises and nothing is written.
     */
    method Commit() returns (ok: bool)
      requires Valid()
      modifies this
      ensures Valid()
      ensures ok <==> !old(clash) && TableConstraints(old(rows))
      ensures ok ==> committed == old(rows) && rows == old(rows) && !clash
      ensures !ok ==> committed == old(committed) && rows == old(rows) && clash == old(clash)
    {
      ok := !clash && TableConstraints(rows);
      if ok {
        committed := rows;
      }
    }

    /** `session.rollback`: back to the last commit. */
    method Rollback()
      requires Valid()
      modifies this
      ensures Valid()
      ensures rows == old(committed) && committed == old(committed) && !clash
    {
      rows := committed;
      clash := false;
    }
  }
}
