# CEH catalogue metadata: ETL pipeline and search API, modelled in Dafny

The system collects dataset metadata from the UK Centre for Ecology &
Hydrology catalogue. It has three parts:

- **ETL pipeline.** For each file identifier, the metadata is fetched in four formats: ISO 19115 XML, the catalogue's own JSON, Schema.org JSON-LD and RDF Turtle. The four records are merged field by field with a fixed source priority. The merged dataset is stored in SQLite together with its child rows (contacts, keywords, relationships, online resources and the raw documents). A batch processor runs the pipeline over a list of identifiers and keeps counters.
- **Embedding generator.** It turns each stored dataset into a text, encodes the texts, and writes three things: a nearest-neighbour index, a slot-by-slot metadata snapshot and one `embeddings` row per dataset.
- **FastAPI service.** It answers semantic search (index hits turned into ranked results), enriched search and hybrid search (semantic candidates narrowed by keyword, author, organisation, date and bounding-box filters, then re-ranked). It also lists and details datasets and reports health and statistics.

The Dafny project follows the source file by file, one module per file:

| Module | Covers |
|---|---|
| `BaseExtractor`, `JsonExtractor`, `JsonLdExtractor` | the extractors |
| `EtlDateUtils` | the ETL date helpers |
| `DatasetModel` | the domain records |
| `DbSchema`, `DatasetRepository` | the stored rows and the repository |
| `Pipeline` | `etl/pipeline.py` |
| `BatchProcessor` | the batch processor |
| `EmbeddingGenerator`, `SemanticSearch` | the embeddings package |
| `ApiDateUtils`, `ApiSchemas`, `ApiDependencies`, `ApiDatasetRoutes`, `ApiSearchRoutes`, `ApiUtilityRoutes` | the API |
| `Common`, `Strings`, `JsonValue`, `Collections` | the Python and SQL operations the code relies on (`dict.get`, truthiness, `strip`, `split`, `LIKE`, `sort`, `GROUP BY`) |

How the source's code is modelled:

- Code that only computes becomes functions and lemmas.
- Loops that append step by step become methods, each proved equal to a specification function.
- Objects that change their own fields become classes:
  - the pipeline, the batch processor, the generator and the searcher;
  - the database session, which holds the pending rows, the rows of the last commit and a key-clash flag.

What stands in for the outside world:

- Network fetches, the XML and RDF parsers, the sentence encoder, the vector index, `fromisoformat`, which texts `float()` accepts, how `str()` renders a float, fresh UUIDs, SQL `ORDER BY` and the non-column attributes of the dataset class are all parameters (functions or values handed in).
- The API routes read the `datasets` table as a sequence of rows in storage order, each row carrying its child rows. Stored dates are real calendar dates, as Python's `date` guarantees (`TableDatesValid`).

## Model

| member | source | states |
|---|---|---|
| BaseExtractor.ValidateSource | backend/etl/extractors/base_extractor.py:41-45 | a source is accepted exactly when it starts with `http://` or `https://` |
| BaseExtractor.FirstSuccess | backend/etl/extractors/base_extractor.py:49-53 | the first attempt whose request succeeded, with every earlier attempt failed; none when all attempts fail |
| BaseExtractor.FetchData | backend/etl/extractors/base_extractor.py:47-58 | the retry loop returns the first successful body after exactly that many requests, and raises after retry_count failed requests (or none when retry_count is not positive) |
| BaseExtractor.Extract | backend/etl/extractors/base_extractor.py:20-39 | the template: an invalid source raises before any request, a failed fetch after all retries, then parse and validate decide; the outcome is the reference outcome |
| BaseExtractor.ExtractedIsValidated | backend/etl/extractors/base_extractor.py:20-39 | whatever extract returns has a valid source, passed validation and is the parse of a body some attempt fetched |
| BaseExtractor.BadSourceNeverFetches | backend/etl/extractors/base_extractor.py:25-26 | a source without an http(s) scheme fails at the source check |
| BaseExtractor.DefaultValidate | backend/etl/extractors/base_extractor.py:70-72 | the parsed dictionary passes exactly when it exists and is not empty |
| JsonExtractor.SpatialIgnoresLaterBoxes | backend/etl/extractors/json_extractor.py:62-72 | only the first bounding box is read; later ones never change the extent |
| JsonExtractor.SpatialAbsentWithoutBoxes | backend/etl/extractors/json_extractor.py:64-72 | without a truthy `boundingBoxes` the extent is None |
| JsonExtractor.PublicationDatePrefersTopLevel | backend/etl/extractors/json_extractor.py:248-252 | a top-level `publicationDate` is used and `datasetReferenceDate` is then irrelevant |
| JsonExtractor.PublicationDateFallsBack | backend/etl/extractors/json_extractor.py:254-260 | without it, the reference date's own `publicationDate` is used, or None |
| JsonExtractor.ContactOf | backend/etl/extractors/json_extractor.py:89-112 | a party must be an object; it yields a contact exactly when its role is non-empty, carrying that role and an address exactly when the party has one |
| JsonExtractor.ExtractContacts | backend/etl/extractors/json_extractor.py:84-114 | the loop collects the contact of each party in order |
| JsonExtractor.ContactsHaveRoles | backend/etl/extractors/json_extractor.py:90-93 | every extracted contact has a non-empty role |
| JsonExtractor.KeywordOf | backend/etl/extractors/json_extractor.py:121-162 | a theme entry must be an object, others may be plain text; a kept keyword is non-empty, typed by its group, with no thesaurus and, for a project keyword, no URI |
| JsonExtractor.CollectGroup | backend/etl/extractors/json_extractor.py:121-162 | one keyword loop collects its group's keywords in order |
| JsonExtractor.ExtractKeywords | backend/etl/extractors/json_extractor.py:116-164 | the four loops run in order theme, other, project, place |
| JsonExtractor.GroupTyped | backend/etl/extractors/json_extractor.py:123-160 | every keyword of a group is non-empty and carries the group's type |
| JsonExtractor.KeywordsOrderedByGroup | backend/etl/extractors/json_extractor.py:116-164 | extracted keywords are non-empty, typed theme/other/project/place, and ordered by group |
| JsonExtractor.GroupsInOrder | backend/etl/extractors/json_extractor.py:116-164 | four typed runs concatenated stay ordered by group |
| JsonExtractor.RelationshipOf | backend/etl/extractors/json_extractor.py:170-178 | succeeds exactly when the item is an object whose `relation` ("" when absent) is a string; the relation type is then the suffix of `relation` after its last `#`, the character before it being that `#` (all of it without one), and the target is copied |
| JsonExtractor.ExtractRelationships | backend/etl/extractors/json_extractor.py:166-180 | the loop collects one relationship per entry in order |
| JsonExtractor.RelationshipsOnePerEntry | backend/etl/extractors/json_extractor.py:170-178 | every input relationship yields exactly one output |
| JsonExtractor.ResourceOf | backend/etl/extractors/json_extractor.py:186-203 | every object entry yields a resource whose url, name, description and function are the entry's values under those keys and whose resource type is its `type`; a non-object fails |
| JsonExtractor.CollectResources | backend/etl/extractors/json_extractor.py:186-193 | one resource loop collects its entries in order |
| JsonExtractor.ExtractOnlineResources | backend/etl/extractors/json_extractor.py:182-205 | the `onlineResources` entries, then the `infoLinks` entries |
| JsonExtractor.CopyKnownKey | backend/etl/extractors/json_extractor.py:207-244 | a name is stored exactly when it is one of the nine known names and its catalogue key is present, with that key's value |
| JsonExtractor.CopyKnownMember | backend/etl/extractors/json_extractor.py:207-244 | the stored names are exactly the known names whose catalogue key is present |
| JsonExtractor.CopyKnownValue | backend/etl/extractors/json_extractor.py:207-244 | each stored value is the document's value under the name's catalogue key |
| JsonExtractor.CopyIfMember | backend/etl/extractors/json_extractor.py:212-213 | one copy adds its name when its key is present and no other name |
| JsonExtractor.CopyIfValue | backend/etl/extractors/json_extractor.py:212-213 | one copy keeps every stored value equal to the document's value under its key |
| JsonExtractor.AdditionalExactlyKnownKeys | backend/etl/extractors/json_extractor.py:207-246 | None exactly when no known key is present; otherwise exactly the present known keys, each with its value unchanged |
| JsonExtractor.ParseData | backend/etl/extractors/json_extractor.py:18-60 | the body must be a JSON object; the raw text and size are kept, `abstract` and `description` are both `description`, identifier and title come from `id` and `title` |
| JsonExtractor.ParseDataNeedsObject | backend/etl/extractors/json_extractor.py:20-60 | a body that is not a JSON object fails |
| JsonExtractor.NumOf | backend/etl/extractors/json_extractor.py:62-73 | a coordinate that is a JSON number or string is kept as its text; null and a missing key are None |
| JsonExtractor.Validate | backend/etl/extractors/json_extractor.py:262-264 | a record passes exactly when its file identifier and title are non-empty |
| JsonLdExtractor.FindFrom | backend/etl/extractors/jsonld_extractor.py:27-31 | the node found is the first `@graph` item typed `Dataset`, every earlier one being an object of another type; None exactly when every item is an object and none is a Dataset node; a failure exactly when a non-object comes before any Dataset node |
| JsonLdExtractor.FindDataset | backend/etl/extractors/jsonld_extractor.py:24-31 | the loop stops at the first Dataset node |
| JsonLdExtractor.FileIdentifierOf | backend/etl/extractors/jsonld_extractor.py:37 | the identifier is the suffix of `@id` after its last `/`, the character before it being that `/` (all of it without one, empty when missing), and contains no `/` |
| JsonLdExtractor.CreatorIdsFromObjects | backend/etl/extractors/jsonld_extractor.py:47-51 | every listed creator id is the `@id` of a creator that is an object holding `@id` |
| JsonLdExtractor.CreatorIds | backend/etl/extractors/jsonld_extractor.py:47-51 | an object or a string as `creator` lists no id (iterating it yields texts, never dicts); only null, a boolean or a number raises |
| JsonLdExtractor.BoolOf | backend/etl/extractors/jsonld_extractor.py:43 | `isAccessibleForFree` as the Boolean column binds it: None exactly when absent or null, a boolean as itself, a numeral equal to 0 or 1 as false or true, and refused exactly for a string, list, object or other number |
| JsonLdExtractor.TemporalText | backend/etl/extractors/jsonld_extractor.py:106-120 | coverage exists only when the first entry is a text containing `/`, and is then its first two `/`-separated segments; a falsy coverage gives None |
| JsonLdExtractor.TemporalUsesFirstEntry | backend/etl/extractors/jsonld_extractor.py:113 | later temporal coverage entries are never read |
| JsonLdExtractor.TemporalNeedsSlash | backend/etl/extractors/jsonld_extractor.py:114-120 | a first entry without `/` gives None |
| JsonLdExtractor.ParseBox | backend/etl/extractors/jsonld_extractor.py:89-103 | a parsed box is a text containing a comma and yields all four bounds, each a token `float` accepts |
| JsonLdExtractor.ExtractSpatial | backend/etl/extractors/jsonld_extractor.py:72-104 | the two nested loops compute the spatial coverage, returning at the first box that parses |
| JsonLdExtractor.SpatialNeedsReference | backend/etl/extractors/jsonld_extractor.py:74-81 | no coverage reference, or one without an `@id`, gives None |
| JsonLdExtractor.LinkMissingGivesNone | backend/etl/extractors/jsonld_extractor.py:83-104 | when no graph object carries the coverage id, the result is None |
| JsonLdExtractor.BoxesUnparsedGiveNone | backend/etl/extractors/jsonld_extractor.py:87-104 | when no box parses, the result is None |
| JsonLdExtractor.ParseData | backend/etl/extractors/jsonld_extractor.py:18-70 | the body must be a JSON object whose `@graph` holds a Dataset node; the raw text and size are kept, the identifier contains no `/`, and the accessibility flag is `isAccessibleForFree` as the Boolean column binds it (`BoolOf`) |
| JsonLdExtractor.NoDatasetFails | backend/etl/extractors/jsonld_extractor.py:33-34 | a graph without a Dataset node fails |
| JsonLdExtractor.Validate | backend/etl/extractors/jsonld_extractor.py:122-124 | a record passes exactly when its identifier and title are non-empty |
| EtlDateUtils.StrptimeYmd | backend/etl/utils/date_utils.py:35 | a date `strptime` accepts is a real calendar day in years 1 to 9999 |
| EtlDateUtils.StrptimeFullDate | backend/etl/utils/date_utils.py:35 | every zero-padded `YYYY-MM-DD` of a real day is accepted and read back as that day |
| EtlDateUtils.StrptimeUnpadded | backend/etl/utils/date_utils.py:35 | a month and day below ten may also be written without their leading zero |
| EtlDateUtils.StrptimeRejectsFeb29 | backend/etl/utils/date_utils.py:35-38 | a day the month does not have is refused |
| EtlDateUtils.StrptimeRejectsYearZero | backend/etl/utils/date_utils.py:35-38 | year 0 is refused |
| EtlDateUtils.StrptimeRejectsTrailing | backend/etl/utils/date_utils.py:35-38 | trailing text after the day is refused |
| EtlDateUtils.ParseDate | backend/etl/utils/date_utils.py:11-38 | a parsed date is a real day and comes from a non-empty text |
| EtlDateUtils.ParseDateIgnoresTime | backend/etl/utils/date_utils.py:31-32 | whatever follows the first `T` is ignored |
| EtlDateUtils.ParseDateFullDate | backend/etl/utils/date_utils.py:15-35 | an ISO date, alone or followed by a time, parses to that date |
| EtlDateUtils.IsoRewrite | backend/etl/utils/date_utils.py:61-68 | the rewritten text holds no `+`, `Z` or `.` and is no longer than the input |
| EtlDateUtils.IsoRewriteFixes | backend/etl/utils/date_utils.py:61-68 | a text without offset, `Z` or fraction is left unchanged |
| EtlDateUtils.IsoRewriteIdempotent | backend/etl/utils/date_utils.py:61-68 | rewriting twice changes nothing more |
| EtlDateUtils.IsoRewriteDropsFractionAndOffset | backend/etl/utils/date_utils.py:47-68 | a time with fractional seconds and a `+hh:mm` offset keeps only the text before the fraction |
| EtlDateUtils.IsoRewriteDropsZulu | backend/etl/utils/date_utils.py:48-64 | a trailing `Z` is removed |
| EtlDateUtils.ParseDateTime | backend/etl/utils/date_utils.py:41-74 | a missing or empty value gives None; otherwise the result is `fromisoformat` of the rewritten text |
| EtlDateUtils.ParseTemporalExtent | backend/etl/utils/date_utils.py:77-100 | an extent exists exactly when bounds were given and at least one parses, and then holds each bound parsed on its own |
| DatasetModel.NewDataset | backend/etl/models/dataset.py:89-139 | a new dataset holds its identifier and title, no id, no extents and empty collections |
| DatasetModel.ContactNames | backend/etl/models/dataset.py:156-164 | every non-empty full name and organisation name of the contacts is collected, and nothing else: each collected name is non-empty and is some contact's full or organisation name, at most two per contact |
| DatasetModel.ContactNamesAppend | backend/etl/models/dataset.py:158-162 | the names follow the contacts' order: those of a first run of contacts come before those of the next |
| DatasetModel.NonEmpty | backend/etl/models/dataset.py:170 | `filter(None, parts)` keeps only non-empty parts, and is empty exactly when every part is |
| DatasetModel.GetSearchText | backend/etl/models/dataset.py:141-170 | the search text is empty exactly when every part is empty, and starts with the title when there is one |
| DatasetModel.TitleLeads | backend/etl/models/dataset.py:143-170 | the joined non-empty parts start with a non-empty title |
| DatasetModel.SearchTextHasKeywords | backend/etl/models/dataset.py:151-153 | with keywords, their space-joined text is one of the parts, and a non-empty title is the first part kept |
| DbSchema.Session.Commit | backend/etl/models/database.py:19-23 | a commit succeeds exactly when no primary key clashed and the pending rows meet the schema (NOT NULL columns, an accessibility flag the Boolean column binds, unique file identifier, children pointing at their parent), and then no clash is pending; a failed commit writes nothing |
| DbSchema.Session.Rollback | backend/etl/pipeline.py:71-72 | a rollback returns the session to the last commit and clears any clash |
| DatasetRepository.ToDbModel | backend/etl/repositories/dataset_repository.py:83-189 | the method builds the reference row under the dataset's own id, or a fresh one when it has none |
| DatasetRepository.ContactRows | backend/etl/repositories/dataset_repository.py:122-139 | one contact row per contact, in order, pointing at the dataset, without position and individual name |
| DatasetRepository.KeywordRows | backend/etl/repositories/dataset_repository.py:141-152 | one keyword row per keyword, in order, pointing at the dataset, without thesaurus |
| DatasetRepository.RelationshipRows | backend/etl/repositories/dataset_repository.py:154-162 | one relationship row per relationship, in order, whose source is the dataset |
| DatasetRepository.ResourceRows | backend/etl/repositories/dataset_repository.py:164-175 | one resource row per online resource, in order, pointing at the dataset |
| DatasetRepository.DocumentRows | backend/etl/repositories/dataset_repository.py:177-187 | one document row per metadata document, in order, pointing at the dataset with its format |
| DatasetRepository.ChildRowsPerElement | backend/etl/repositories/dataset_repository.py:86-189 | the stored row carries the id, one child row per element of each collection, and every child points at that id |
| DatasetRepository.RoundTripIsLossy | backend/etl/repositories/dataset_repository.py:83-299 | reading back a stored dataset whose extent has four numeric bounds gives it back with the stored id, without purpose and creation date, contacts without position and individual name, keywords without thesaurus, and a temporal extent only when it has a start |
| DatasetRepository.EndOnlyTemporalLost | backend/etl/repositories/dataset_repository.py:117-209 | a temporal extent with only an end date is stored but does not come back |
| DatasetRepository.MissingBoundBreaksReadBack | backend/etl/repositories/dataset_repository.py:110-201 | a spatial extent with a missing bound is stored as the text "None", and reading the dataset back raises |
| DatasetRepository.UpdateDbModel | backend/etl/repositories/dataset_repository.py:301-331 | every scalar column is overwritten; extent columns only when the dataset has that extent; id and child rows stay as they are |
| DatasetRepository.Repository.Add | backend/etl/repositories/dataset_repository.py:28-47 | the dataset is put in the session under its own id or a fresh one and comes back carrying that id; an id already present is a clash that fails the next commit |
| DatasetRepository.Repository.GetById | backend/etl/repositories/dataset_repository.py:49-52 | an unknown id gives None; a known one gives its row read back, carrying that id, and a row that cannot be read back raises |
| DatasetRepository.Repository.Update | backend/etl/repositories/dataset_repository.py:64-73 | a dataset without a stored row raises ValueError and changes nothing; otherwise only its row changes, with new fields and the same children |
| DatasetRepository.Repository.Delete | backend/etl/repositories/dataset_repository.py:75-81 | true exactly when the id had a row, and afterwards it has none |
| DbSchema.Session.constructor | backend/etl/repositories/dataset_repository.py:24-26 | a session over rows that meet the schema, all committed, with no clash |
| DbSchema.Session.Add | backend/etl/repositories/dataset_repository.py:42 | a new key is added to the pending rows; an existing key leaves them and records a clash for the commit |
| DbSchema.Session.Delete | backend/etl/repositories/dataset_repository.py:79 | the row leaves the pending rows; the committed ones are untouched |
| DbSchema.Session.Put | backend/etl/repositories/dataset_repository.py:71 | a pending row is replaced; the committed ones are untouched |
| DatasetRepository.Repository.constructor | backend/etl/repositories/dataset_repository.py:24-26 | a repository works on the session it is given |
| Pipeline.UrlsAreValidSources | backend/etl/pipeline.py:76-110 | every catalogue URL the pipeline builds passes the extractors' source check |
| Pipeline.ValidateXml | backend/etl/extractors/xml_extractor.py:233-235 | an XML record passes exactly when its file identifier and title are non-empty |
| Pipeline.ValidateRdf | backend/etl/extractors/rdf_extractor.py:127-129 | an RDF record passes exactly when its file identifier and title are non-empty |
| Pipeline.Swallow | backend/etl/pipeline.py:76-110 | a failed extraction becomes None and only a failed one does |
| Pipeline.ExtractedJsonIsValid | backend/etl/pipeline.py:85-92 | a JSON record that the pipeline receives always has a non-empty identifier and title |
| Pipeline.Coalesce | backend/etl/pipeline.py:132-133 | the first value that is not None, and None exactly when all are |
| Pipeline.Enrich | backend/etl/pipeline.py:252-259 | the enrichment loop changes only `in_defined_term_set`, and only on keywords whose text is in the map, taking the map's value |
| Pipeline.TermMapKeys | backend/etl/pipeline.py:255-256 | the term-set map's keys are exactly the keyword texts of the entries |
| Pipeline.TermMapLastWins | backend/etl/pipeline.py:255-256 | each keyword text maps to the term set of its last entry |
| Pipeline.MergeAllFormats | backend/etl/pipeline.py:112-310 | the method builds the reference merge |
| Pipeline.SelectExtents | backend/etl/pipeline.py:200-230 | the spatial and temporal extents are the first truthy ones among JSON, XML and JSON-LD |
| Pipeline.SelectContactsAndKeywords | backend/etl/pipeline.py:232-250 | contacts and keywords are JSON's list when it is non-empty, else XML's |
| Pipeline.EnrichKeywords | backend/etl/pipeline.py:257-259 | the loop computes the enrichment |
| Pipeline.CollectDocuments | backend/etl/pipeline.py:273-308 | the four appends produce the raw documents in the order xml, json, jsonld, rdf |
| Pipeline.TitlePriority | backend/etl/pipeline.py:144-149 | a title from a higher-priority source wins whatever lower ones hold, in the order JSON, JSON-LD, XML, RDF |
| Pipeline.FileIdentifierPriority | backend/etl/pipeline.py:137-141 | the file identifier is JSON's, else XML's, else the requested one, so it is never None |
| Pipeline.ExtentsIgnoreRdf | backend/etl/pipeline.py:200-230 | the RDF record never influences the extents |
| Pipeline.CollectionsNeverUnioned | backend/etl/pipeline.py:232-250 | contacts and keywords come whole from one source, never a union of two |
| Pipeline.JsonLdOutputNeverEnriches | backend/etl/pipeline.py:252-259 | a record the JSON-LD extractor produces never enriches the keywords, since it never yields `keywords_with_term_sets` |
| Pipeline.EnrichmentKeepsKeywords | backend/etl/pipeline.py:252-259 | enrichment keeps the keywords' number, order, text and type |
| Pipeline.FormatsAppend | backend/etl/pipeline.py:273-308 | the formats of appended document lists are the formats of each list, concatenated |
| Pipeline.DocumentsOrderedByFormat | backend/etl/pipeline.py:273-308 | at most one document per format, at most four, in the order xml, json, jsonld, rdf, each present exactly when its raw text is non-empty |
| Pipeline.DocumentsCarryRawText | backend/etl/pipeline.py:274-308 | each kept document carries its source's raw text and size (0 when absent) unchanged |
| Pipeline.MergeDropsPurposeAndCreationDate | backend/etl/pipeline.py:136-198 | the merged dataset never has a purpose, a creation date or an id |
| Pipeline.EtlPipeline.constructor | backend/etl/pipeline.py:24-33 | a pipeline works on the session it is given |
| Pipeline.EtlPipeline.ProcessDataset | backend/etl/pipeline.py:35-74 | the result and the session afterwards are exactly `ProcessStep` of the session before: with nothing extracted, None and rows, commit and pending clash all unchanged; otherwise the merged dataset is added and committed under a fresh id, and it comes back exactly when its id is new, no earlier add clashed and the table with its row meets the schema, the session's rows then being the new commit with no clash pending; a failed commit is rolled back and gives None with the committed state unchanged; any dataset returned is the merge of the four extractions under its stored id (`ProcessOutcome`) |
| Pipeline.EtlPipeline.ExtractAll | backend/etl/pipeline.py:49-52 | the four extractions, each failure turned into None |
| Pipeline.EtlPipeline.Save | backend/etl/pipeline.py:64-74 | the dataset is added and committed and comes back with its id exactly when its id is new, no earlier add clashed and the table with its row meets the schema; the session's rows are then the new commit with no clash pending; otherwise the session is rolled back to the last commit and the result is None |
| Pipeline.ProcessStep | backend/etl/pipeline.py:35-74 | one call on a session state: the outcome is what the pipeline can return (`ProcessOutcome`), a dataset exactly when the commit succeeds (`ProcessSucceeds`); the committed table stays valid, and changes only when a dataset comes back |
| Pipeline.MergedFlag | backend/etl/pipeline.py:194 | the merged accessibility flag is the JSON-LD record's, None without one |
| Pipeline.RefusedFlagRow | backend/etl/models/database.py:54 | a row whose accessibility flag the Boolean column refuses breaks any table it is added to |
| Pipeline.RefusedFlagFails | backend/etl/pipeline.py:59-74 | when the JSON-LD `isAccessibleForFree` is refused by the Boolean column, the commit fails and `process_dataset` returns None, whatever the session holds |
| BatchProcessor.FirstExisting | backend/etl/batch_processor.py:78-83 | the first of the paths that exists, and none exactly when no path exists |
| BatchProcessor.NonBlankLines | backend/etl/batch_processor.py:92-93 | at most one id per line, each with no whitespace at either end |
| BatchProcessor.CleanLinesKept | backend/etl/batch_processor.py:93 | a file of already-stripped lines yields those lines unchanged, in order |
| BatchProcessor.BlankLineDropped | backend/etl/batch_processor.py:93 | a whitespace-only line contributes no id |
| BatchProcessor.LoadSpec | backend/etl/batch_processor.py:56-96 | a named file must exist and gives its non-blank stripped lines; without a name some fallback path must exist; otherwise FileNotFoundError |
| BatchProcessor.TallyCountsEveryId | backend/etl/batch_processor.py:143-166 | every id counts once, as a success or a failure, and the fail count equals the number of listed failures |
| BatchProcessor.TallyFailedIds | backend/etl/batch_processor.py:158-166 | failed_ids lists exactly the ids that came back without a dataset, in input order |
| BatchProcessor.NothingExtractedIsFailed | backend/etl/batch_processor.py:142-166 | counted against what the pipeline returns, an id for which no format was extracted is always in failed_ids |
| BatchProcessor.TallyFormatStats | backend/etl/batch_processor.py:152-154 | each format's counter is its starting value plus one per document of that format among the successful datasets |
| BatchProcessor.TallyKeepsFormatKeys | backend/etl/batch_processor.py:132-137 | the four format counters are always present, even when nothing succeeds |
| BatchProcessor.TallyStep | backend/etl/batch_processor.py:143-166 | one turn of the loop records one more id's outcome on the counters |
| BatchProcessor.RunOutcomeAt | backend/etl/batch_processor.py:142-149 | outcome i of a batch run is the step on id i from the state the first i ids left |
| BatchProcessor.RunSucceedsIff | backend/etl/batch_processor.py:142-166 | id i of a batch yields a dataset exactly when it commits on the state the earlier ids left, and that outcome is what the pipeline can return for id i |
| BatchProcessor.RunKeepsSchema | backend/etl/batch_processor.py:142-166 | starting from a valid committed table, every commit of the batch keeps it valid |
| BatchProcessor.Processor.constructor | backend/etl/batch_processor.py:22-40 | a processor starts with no session and no pipeline |
| BatchProcessor.Processor.SetupDatabase | backend/etl/batch_processor.py:42-54 | opens and stores a fresh session over the stored tables |
| BatchProcessor.Processor.LoadDatasetIds | backend/etl/batch_processor.py:56-96 | the method computes the reference loading of the ids |
| BatchProcessor.Processor.ResolveIds | backend/etl/batch_processor.py:108-110 | given ids are used as they are; otherwise they are loaded from the file |
| BatchProcessor.Processor.RecordOutcome | backend/etl/batch_processor.py:147-166 | one loop body: a dataset counts as a success with its documents' formats, no dataset as a listed failure |
| BatchProcessor.Processor.CountDocumentFormats | backend/etl/batch_processor.py:153-154 | the inner loop adds one per document to its format's counter |
| BatchProcessor.Processor.Process | backend/etl/batch_processor.py:98-178 | loads the ids when none are given (failing only then), opens the session on first use and keeps an existing one, builds the pipeline on it, and returns the counters over every id's outcome; the outcomes and the final session state are the batch run (`RunPrefix` of `ProcessStep`) from the existing session's state, or from the stored tables for a new session |
| BatchProcessor.Processor.RunPipeline | backend/etl/batch_processor.py:142-171 | the loop runs the pipeline once per id in order and counts each outcome, keeping the pipeline valid; the outcomes and the final session state are the batch run (`RunPrefix` of `ProcessStep`) from the session state before, so outcome i is a dataset exactly when id i commits on the state the earlier ids left (`RunSucceedsIff`) |
| EmbeddingGenerator.TextParts | backend/embeddings/generator.py:48-57 | at most three parts, none empty, and none exactly when no switched-on field is truthy |
| EmbeddingGenerator.JoinNonEmpty | backend/embeddings/generator.py:60 | joining non-empty parts with ". " is empty only for no parts and starts with the first part |
| EmbeddingGenerator.DatasetTextEmptyIff | backend/embeddings/generator.py:38-60 | the text is empty exactly when every switched-on field is falsy |
| EmbeddingGenerator.DatasetTextStartsWithTitle | backend/embeddings/generator.py:50-60 | a switched-on truthy title leads the text |
| EmbeddingGenerator.DefaultTextIsTitleThenAbstract | backend/embeddings/generator.py:50-60 | with the default switches a dataset with title and abstract reads "title. abstract", whatever its lineage |
| EmbeddingGenerator.Snippet | backend/embeddings/generator.py:175 | None exactly for a falsy abstract; otherwise a prefix of at most 300 characters, the whole abstract when it is that short |
| EmbeddingGenerator.SnapshotOf | backend/embeddings/generator.py:158-186 | slot i of the id, identifier and metadata lists all describe dataset i; the count and the model name are recorded |
| EmbeddingGenerator.EmbeddingRows | backend/embeddings/generator.py:205-214 | one row per dataset and vector pair, up to the shorter list, with the dataset id, the model name and the vector's length |
| EmbeddingGenerator.Encoded | backend/embeddings/generator.py:86-113 | one vector per dataset, in order, the model's encoding of its text |
| EmbeddingGenerator.EmbeddingTable.constructor | backend/embeddings/generator.py:198-202 | a table holding the given rows |
| EmbeddingGenerator.Generator.constructor | backend/embeddings/generator.py:20-28 | no model loaded and nothing generated |
| EmbeddingGenerator.Generator.LoadModel | backend/embeddings/generator.py:30-36 | the model is loaded once; later calls return the same model |
| EmbeddingGenerator.Generator.UpdateDatabase | backend/embeddings/generator.py:188-219 | the table is cleared and then holds exactly the embedding rows |
| EmbeddingGenerator.Generator.GenerateAll | backend/embeddings/generator.py:221-269 | with no datasets, the failure and nothing written; otherwise the index holds every dataset's vector, the snapshot and the rows describe the same datasets, and the count and model are reported |
| SemanticSearch.EffectiveTopK | backend/embeddings/search.py:110 | a missing or zero `top_k` falls back to 10; any other is kept |
| SemanticSearch.PyIndex | backend/embeddings/search.py:128-129 | Python indexing: defined exactly for positions -n..n-1, negative ones counting from the end |
| SemanticSearch.RoundHalfEven | backend/embeddings/search.py:145 | the nearest integer, ties going to the even one |
| SemanticSearch.Round4 | backend/embeddings/search.py:145 | `round(x, 4)`: a multiple of 1/10000 within half of that of x |
| SemanticSearch.Round4Idempotent | backend/embeddings/search.py:145 | rounding a rounded value changes nothing |
| SemanticSearch.Assemble | backend/embeddings/search.py:124-149 | succeeds exactly when every hit's slot is readable; one result per hit, ranked 1..n in hit order, read from the hit's slot, with the hit's distance and as similarity that distance rounded to four decimal places (`Round4`) |
| SemanticSearch.ResultDescribesGeneratedDataset | backend/embeddings/search.py:126-147 | against a snapshot the generator wrote, a hit on slot s describes the s-th generated dataset, with its abstract snippet |
| SemanticSearch.ApplyFilters | backend/embeddings/search.py:265-291 | no filter is implemented: results come back unchanged |
| SemanticSearch.EnrichmentOf | backend/embeddings/search.py:179-259 | the keywords are the row's keyword texts put in the keyword query's order; the spatial extent exists exactly when `spatial_west` is truthy and the temporal one exactly when `temporal_start` is set, each holding the row's bounds; the publication date is the row's |
| SemanticSearch.EnrichmentListsRowKeywords | backend/embeddings/search.py:192-198 | when the keyword ORDER BY only rearranges the texts, the enrichment lists exactly the row's keywords, each as often as the row holds it |
| SemanticSearch.Enriched | backend/embeddings/search.py:236-261 | a result changes only in its enrichment, and only when its dataset row exists |
| SemanticSearch.Searcher.constructor | backend/embeddings/search.py:19-30 | nothing loaded and no connection |
| SemanticSearch.Searcher.LoadModel | backend/embeddings/search.py:32-37 | the model is loaded once; later calls return the same model |
| SemanticSearch.Searcher.LoadIndex | backend/embeddings/search.py:39-51 | a loaded index is kept; a missing file raises and leaves it unset; otherwise the file's index is loaded |
| SemanticSearch.Searcher.LoadMetadata | backend/embeddings/search.py:53-66 | the same for the snapshot |
| SemanticSearch.Searcher.Search | backend/embeddings/search.py:93-155 | a missing index raises; on success everything is loaded and the results are the assembly of the index's hits for the encoded query and the effective `top_k` |
| SemanticSearch.Searcher.CollectResults | backend/embeddings/search.py:125-149 | the loop computes the assembly |
| SemanticSearch.Searcher.ConnectDatabase | backend/embeddings/search.py:68-73 | afterwards a connection is open; nothing else changes |
| SemanticSearch.Searcher.EnrichResults | backend/embeddings/search.py:223-263 | same count and order, each result enriched from its row; the database is connected when there was a result to look up |
| SemanticSearch.Searcher.Close | backend/embeddings/search.py:293-297 | the connection is dropped and nothing else changes |
| ApiDateUtils.ParseDateString | backend/api/date_utils.py:10-38 | a text is accepted exactly when `%Y-%m-%d` strptime accepts it, the result is a real calendar date, and every rejection is a ValueError |
| ApiDateUtils.FormatDateForApi | backend/api/date_utils.py:41-55 | a date is written as ten characters, digits around dashes at positions 4 and 7 |
| ApiDateUtils.ParseFormatRoundTrip | backend/api/date_utils.py:10-55 | parsing the formatted text of any valid date gives that date back |
| ApiDateUtils.DocumentedExample | backend/api/date_utils.py:26-28 | 15 January 2024 formats as "2024-01-15" and that text parses back to it |
| ApiDateUtils.InvalidRaises | backend/api/date_utils.py:30-31 | "invalid" is rejected |
| ApiDependencies.GetPaginationParams | backend/api/dependencies.py:139-173 | a page below 1, a size below 1 or above the maximum page size of 100 is a 400; otherwise page and size come back with offset (page - 1) * size |
| ApiDependencies.PagesTileRows | backend/api/dependencies.py:171 | page 1 starts at row 0, each page starts where the previous ended, and row p lies on page p / size + 1 |
| ApiDependencies.SearchProvider.GetSemanticSearch | backend/api/dependencies.py:62-103 | the first call stores a fresh instance before loading, a missing index or metadata file is a 503 and leaves the half-loaded instance stored; once stored, every call returns that instance |
| ApiDependencies.VerifyEmbeddingsExist | backend/api/dependencies.py:120-136 | hands back the instance it is given, unchanged |
| ApiSchemas.StripTrims | backend/api/schemas.py:126-130 | `strip()` leaves no whitespace at either end, never lengthens, and gives the empty text exactly for a whitespace-only text |
| ApiSchemas.StripTrimmed | backend/api/schemas.py:126-130 | a text with no whitespace at either end strips to itself |
| ApiSchemas.ValidateSemanticSearch | backend/api/schemas.py:121-130 | accepted exactly when the query as sent has 1..500 characters and is not whitespace-only and top_k (default 10) lies in 1..100; the stored query is the stripped text |
| ApiSchemas.ValidatedSemanticSearchIsStable | backend/api/schemas.py:121-130 | an accepted request holds a 1..500-character query with no whitespace at either end, and validating it again gives the same request |
| ApiSchemas.ValidateHybridSearch | backend/api/schemas.py:158-175 | accepted exactly when the optional query has at most 500 characters and top_k (default 10) lies in 1..100; every field is kept as sent |
| ApiSchemas.HybridAcceptsBlankQuery | backend/api/schemas.py:121-160 | a whitespace-only query is accepted by the hybrid request and refused by the semantic one |
| ApiSchemas.ValidateDatasetList | backend/api/schemas.py:180-185 | accepted exactly when the page (default 1) is at least 1 and the page size (default 20) lies in 1..100; sorting defaults to title ascending |
| ApiSchemas.SerializeDate | backend/api/schemas.py:29-35 | None stays None, text passes through unchanged, a date becomes ten characters of ISO text |
| ApiSchemas.SerializedDateParsesBack | backend/api/schemas.py:29-35 | the serialised text of a date is read back as that date by `parse_date_string` |
| ApiDependencies.SearchProvider.constructor | backend/api/dependencies.py:59 | no search instance is stored yet |
| ApiDatasetRoutes.Find | backend/api/routes/datasets.py:101 | the lookup by id finds the first row with that id, and None exactly when no row has it |
| ApiDatasetRoutes.SortKeyFor | backend/api/routes/datasets.py:61-69 | a column of the dataset table sorts in the requested direction; a non-column attribute of the class is a 500; any other name sorts by title ascending; a successful order is always by a column |
| ApiDatasetRoutes.PageOf | backend/api/routes/datasets.py:72 | OFFSET/LIMIT keeps at most n rows, namely the rows from the offset on, in order |
| ApiDatasetRoutes.TotalPagesIsCeiling | backend/api/routes/datasets.py:75 | the page count is zero exactly for no rows, and otherwise the least page count whose pages hold every row |
| ApiDatasetRoutes.ListDatasets | backend/api/routes/datasets.py:34-83 | out-of-range page or size is refused, a sort order other than asc/desc is a 400, a non-column attribute as sort field is a 500, and the response exists exactly when none of these happens; it carries the total, the page count and the rows of the chosen order from the page's offset |
| ApiDatasetRoutes.EveryRowIsListed | backend/api/routes/datasets.py:48-82 | when the ORDER BY rearranges the table's rows, every row of the table is listed on page p / size + 1 at position p % size, p being its place in the order, within the page count |
| ApiDatasetRoutes.ListedRowsAreTableRows | backend/api/routes/datasets.py:48-82 | when the ORDER BY rearranges the table's rows, every listed entry is the view of a row of the table |
| ApiDatasetRoutes.PositionIsListed | backend/api/routes/datasets.py:48-82 | row p of an ordering of the table's length is listed on page p / size + 1 at position p % size, within the page count |
| ApiDatasetRoutes.Bound | backend/api/routes/datasets.py:110-113 | an empty or missing bound is None, a numeric one is kept, and any other text is a 500 |
| ApiDatasetRoutes.SpatialExtentOf | backend/api/routes/datasets.py:107-114 | a 500 exactly when some non-empty bound is not a number; otherwise the extent exists exactly when some bound is non-empty, and each of its bounds is the stored one when that is non-empty and None otherwise |
| ApiDatasetRoutes.DateTextOf | backend/api/routes/datasets.py:120-121 | a stored date becomes text that the API's date parser reads back as that date |
| ApiDatasetRoutes.TemporalExtentOf | backend/api/routes/datasets.py:117-122 | the extent exists exactly when either end is stored, and each end is that date's text |
| ApiDatasetRoutes.GetDataset | backend/api/routes/datasets.py:86-129 | a missing id is a 404, a row with a non-numeric bound a 500, and the detail exists exactly otherwise; it carries the first matching row's fields, both extents and all its child rows |
| ApiDatasetRoutes.KeywordsOf | backend/api/routes/datasets.py:152 | the query returns exactly the keyword rows whose dataset id matches |
| ApiDatasetRoutes.ContactsOf | backend/api/routes/datasets.py:188 | the query returns exactly the contact rows whose dataset id matches |
| ApiDatasetRoutes.ResourcesOf | backend/api/routes/datasets.py:226 | the query returns exactly the resource rows whose dataset id matches |
| ApiDatasetRoutes.DocumentsOf | backend/api/routes/datasets.py:265 | the query returns exactly the document rows whose dataset id matches |
| ApiDatasetRoutes.GetDatasetKeywords | backend/api/routes/datasets.py:132-165 | 404 for a missing dataset; otherwise one entry per keyword row with its text, type and URI, and the count |
| ApiDatasetRoutes.ContactNameShowsNone | backend/api/routes/datasets.py:196 | as written, given name "Jane" with no family name is displayed as "Jane None" |
| ApiDatasetRoutes.ContactNameDropsMissingPart | backend/api/routes/datasets.py:196 | in the corrected name a missing part adds nothing: the other part, stripped, or the full name when neither is set |
| ApiDatasetRoutes.ContactNameAgreesWhenBothSet | backend/api/routes/datasets.py:196 | with both parts set the corrected and the as-written name are the same |
| ApiDatasetRoutes.GetDatasetContacts | backend/api/routes/datasets.py:168-203 | 404 for a missing dataset; otherwise one entry per contact row with role, the display name the route builds (a missing part printed as None), organisation, email and ORCID |
| ApiDatasetRoutes.GetDatasetResources | backend/api/routes/datasets.py:206-240 | 404 for a missing dataset; otherwise one entry per resource row, the protocol shown being the stored resource type |
| ApiDatasetRoutes.GetDatasetMetadata | backend/api/routes/datasets.py:243-303 | 404 for a missing dataset; a format outside xml/json/jsonld/rdf after lower-casing is a 400; with a valid format, a 404 exactly when the dataset has no document of it, and otherwise every document of that format and only those; with no format every document is returned, possibly none |
| ApiDatasetRoutes.DocumentsOfFormat | backend/api/routes/datasets.py:275-303 | a 404 exactly when no document has the format; otherwise every document of the format and nothing else |
| ApiDatasetRoutes.OfFormat | backend/api/routes/datasets.py:275 | the documents kept are exactly those of the format, none exactly when no document has it |
| ApiDatasetRoutes.StoredFormatIsFound | backend/api/routes/datasets.py:268-278 | a format present among the dataset's documents is found whatever its letter case |
| ApiSearchRoutes.SemanticSearchRoute | backend/api/routes/search.py:34-84 | a failing search is a 500; otherwise one response entry per search result, in order, carrying its rank, dataset, score and distance |
| ApiSearchRoutes.SemanticRouteRanksHits | backend/api/routes/search.py:54-84 | over the semantic search the route lists the index hits ranked 1..n, each with the dataset id of its slot |
| ApiSearchRoutes.EnrichedResult | backend/api/routes/search.py:118-178 | a result with no dataset row stays basic; with a row it fails with a 500 exactly when a non-empty bound is not a number, and otherwise gains both extents, the publication date and the texts of the dataset's keyword rows in storage order, None exactly when it has none; rank, id and score are kept |
| ApiSearchRoutes.SemanticSearchEnriched | backend/api/routes/search.py:87-187 | a 500 exactly when the search fails or some result's dataset row has a non-numeric bound; otherwise the same number of entries as results, in order, each one enriched |
| ApiSearchRoutes.AllKeywordIdsMeansEvery | backend/api/routes/search.py:281-294 | the intersected keyword ids hold exactly the datasets that have every requested keyword |
| ApiSearchRoutes.IntersectKeywordIds | backend/api/routes/search.py:283-294 | the keyword loop computes that intersection |
| ApiSearchRoutes.BboxOf | backend/api/routes/search.py:329-339 | the spatial filter applies exactly when the box holds all four keys |
| ApiSearchRoutes.RankEntry | backend/api/routes/search.py:347-348 | the rank map entry of an id is a semantic result of that dataset, and there is none exactly when no result has that id |
| ApiSearchRoutes.Ordered | backend/api/routes/search.py:345-353 | with a query the filtered rows are permuted into non-decreasing semantic rank (999 for an unranked row); without one they keep their order |
| ApiSearchRoutes.Ranked | backend/api/routes/search.py:356-383 | the first top_k rows, numbered from 1, scored by their semantic result with a query and 0.0 without |
| ApiSearchRoutes.Filtered | backend/api/routes/search.py:230-342 | the filtered query returns exactly the stored rows that are candidates and pass every filter |
| ApiSearchRoutes.HybridSearch | backend/api/routes/search.py:190-392 | the route's loops compute the hybrid answer: semantic candidates or every dataset, the filters in order with their early empty answers and 400s, the sort and the numbering |
| ApiSearchRoutes.RankRows | backend/api/routes/search.py:344-392 | the sort and the numbering loop produce the answer over the filtered rows |
| ApiSearchRoutes.AnswerRowsAreFiltered | backend/api/routes/search.py:356-392 | each entry of the answer is a filtered row, numbered from 1, with no distance and the score of its semantic result (0.0 without a query), at most top_k of them |
| ApiSearchRoutes.AnswerListsAllBelowTopK | backend/api/routes/search.py:357-382 | an answer shorter than top_k lists every filtered row |
| ApiSearchRoutes.AnswerFollowsRanking | backend/api/routes/search.py:351-357 | with a query the answer is in non-decreasing semantic rank |
| ApiSearchRoutes.HybridIsAnswer | backend/api/routes/search.py:214-392 | once the filters pass, the response is the answer over the filtered candidates |
| ApiSearchRoutes.HybridResultsPassFilters | backend/api/routes/search.py:229-392 | every hybrid result is a stored candidate dataset that passes every filter; results are numbered from 1 and at most top_k |
| ApiSearchRoutes.HybridFollowsSemanticRanking | backend/api/routes/search.py:345-357 | with a query the hybrid results are ordered by the rank of their semantic result |
| ApiSearchRoutes.HybridShowsSemanticScores | backend/api/routes/search.py:215-366 | with a query every hybrid result is among the semantic results and shows that result's similarity score |
| ApiSearchRoutes.HybridListsEveryMatchBelowTopK | backend/api/routes/search.py:225-383 | without a query every dataset is a candidate, and when fewer than top_k results come back every candidate passing the filters is listed |
| ApiSearchRoutes.UnmatchedAuthorsGiveNoResults | backend/api/routes/search.py:233-255 | an author list matching no contact gives an empty answer labelled with the query or "filter-only" |
| ApiSearchRoutes.LikeAnyMentions | backend/api/routes/search.py:237-239 | for a pattern without `%` or `_`, `LIKE '%a%'` holds exactly when the column is set and contains a, ignoring ASCII case |
| ApiSearchRoutes.AuthorFilterMeansNameContains | backend/api/routes/search.py:233-244 | for such names a dataset passes the author filter exactly when one of its contacts has a full, given or family name containing one of them |
| ApiUtilityRoutes.HealthCheck | backend/api/routes/utils.py:26-79 | embeddings are healthy exactly when the count query returns a positive number; the status is "healthy" exactly when all three checks pass, with no error list; otherwise the list names each failed check once, in the order the checks run |
| ApiUtilityRoutes.MetadataFormats | backend/api/routes/utils.py:108-114 | one entry per format that occurs among the documents, counting exactly the documents of that format |
| ApiUtilityRoutes.FormatCount | backend/api/routes/utils.py:108-114 | the documents kept for a format are as many as the occurrences of that format |
| ApiUtilityRoutes.EmbeddingsInfo | backend/api/routes/utils.py:116-139 | a raising query leaves the count 0 and no details; otherwise the count is the number of rows and the details come from the first row when there is one |
| ApiUtilityRoutes.SqlBlankIsBlank | backend/api/routes/utils.py:168-192 | a name SQLite's TRIM empties is also whitespace-only to Python's strip |
| ApiUtilityRoutes.RawAuthorGroupShown | backend/api/routes/utils.py:143-193 | as written, a contact whose coalesced name is more than whitespace has a group keyed on its unstripped name and organisation |
| ApiUtilityRoutes.RawAuthorGroupsTwo | backend/api/routes/utils.py:179-183 | as written, two named contacts with different unstripped keys fall into two different groups |
| ApiUtilityRoutes.FullAndFamilyName | backend/api/routes/utils.py:145-152 | full name n and family name n alone are grouped apart ("n" against " n") but both strip to n |
| ApiUtilityRoutes.AuthorListedTwice | backend/api/routes/utils.py:141-193 | as written, a contact with full name n and one with only family name n in the same organisation are listed as two authors both named n |
| ApiUtilityRoutes.AuthorStatsAsWritten | backend/api/routes/utils.py:141-193 | the author statistics as the program computes them: every shown name non-empty and stripped, counts at least 1 and never increasing |
| ApiUtilityRoutes.AuthorStatsAsWrittenCount | backend/api/routes/utils.py:141-193 | as written, every contact whose name is more than whitespace is listed under its shown name and organisation, counting the distinct datasets with a contact of the same unstripped name and organisation |
| ApiUtilityRoutes.RawAuthorGroups | backend/api/routes/utils.py:143-193 | the groups the author query keeps have a name that is more than whitespace and at least one dataset, largest count first |
| ApiUtilityRoutes.AuthorGroups | backend/api/routes/utils.py:141-193 | corrected grouping on the shown name: largest group first, no key twice, every name non-empty with no whitespace at either end, every count at least 1 |
| ApiUtilityRoutes.AuthorGroupsCount | backend/api/routes/utils.py:154-183 | a named contact's group counts the distinct datasets with a contact shown under the same name and organisation |
| ApiUtilityRoutes.AuthorStats | backend/api/routes/utils.py:141-193 | corrected author statistics: names non-empty and stripped, counts at least 1 and never increasing, no name and organisation pair listed twice |
| ApiUtilityRoutes.AuthorStatsCountDatasets | backend/api/routes/utils.py:141-193 | every contact whose name is more than whitespace is listed under its shown name and organisation with the number of distinct datasets having a contact shown that way |
| ApiUtilityRoutes.NamedRows | backend/api/routes/utils.py:199-229 | the WHERE clause keeps exactly the rows whose name SQLite's TRIM does not empty |
| ApiUtilityRoutes.ShownGroups | backend/api/routes/utils.py:211-243 | the comprehension keeps exactly the groups whose name is more than whitespace, in order |
| ApiUtilityRoutes.NameCounts | backend/api/routes/utils.py:195-243 | organisation and keyword statistics: each name is more than whitespace, listed once, with the number of distinct datasets among its rows, largest first |
| ApiUtilityRoutes.NameCountsCover | backend/api/routes/utils.py:195-243 | every row whose name is more than whitespace has its name listed |
| ApiUtilityRoutes.GetStatistics | backend/api/routes/utils.py:82-258 | the five table counts, the number of documents of each format, the embeddings details (none unless embeddings exist) and the three ranked lists, the authors as the program groups them |
| Strings.LikeContains | backend/api/routes/search.py:237-239 | `LIKE '%a%'` matches exactly the texts containing `a` up to ASCII case |
| Strings.StripEmptyIff | backend/api/schemas.py:128 | `strip()` gives the empty text exactly when every character is whitespace |
| Strings.Lower | backend/api/routes/datasets.py:269 | `lower()` maps each ASCII letter to lower case and keeps the length |
| Strings.Before | backend/etl/utils/date_utils.py:32 | `split(c)[0]` is the text up to the first `c`, a prefix containing no `c` |
| Strings.AfterLast | backend/etl/extractors/json_extractor.py:173 | `split(c)[-1]` is the suffix after the last `c`, all of the text without one |
| Strings.JoinSplit | backend/etl/extractors/jsonld_extractor.py:115 | joining the pieces of a split with the separator gives back the text |
| Collections.SortBy | backend/api/routes/search.py:351-353 | the sorted list is a permutation of the input whose keys never decrease |
| Collections.Tally | backend/api/routes/utils.py:196-209 | the groups have distinct keys, in descending count, each counting the distinct datasets of its rows |
| Collections.TallyCovers | backend/api/routes/utils.py:196-209 | every row's key has its group |
| Collections.TallyEntryHasRow | backend/api/routes/utils.py:196-209 | every group is the key of some row |
| JsonValue.CollectFails | backend/etl/extractors/json_extractor.py:89-114 | a collecting loop raises exactly when its body raises on some element |
| JsonValue.CollectSound | backend/etl/extractors/json_extractor.py:89-114 | every collected item comes from an element for which the body produced it |

## Left out

- XML and RDF extraction: the ISO 19139 XPath queries and the rdflib traversal are library behaviour, so their records are inputs to the merge. Only their `validate` is modelled.
- Network access: the `requests` session, timeouts, `raise_for_status`, the `sleep` between retries and the half-second `sleep` after every tenth id of a batch (backend/etl/batch_processor.py:171) are left out. Each fetch attempt is a parameter that succeeds with a payload or fails.
- JSON and UTF-8 decoding: a payload carries its text, its byte size and the decoded document, or None when the body is not JSON.
- Floating point: JSON numbers, bounding-box coordinates and `str(float)` are carried as the text of the number. `float()` is a parameter saying which texts it accepts, both where the JSON-LD box is parsed and where the routes read a stored bound. `str(float)` of the hybrid request's bounding box is a parameter; the filter then compares texts code point by code point, as SQLite compares the text columns.
- Sentence encoding, normalisation and the vector index are parameters. The `1/(1+d)` similarity for an unnormalised index is left out: `NORMALIZE_EMBEDDINGS` is set (backend/embeddings/config.py:27), so the similarity is the index's score itself. `round(..., 4)` is modelled on exact reals (`SemanticSearch.Round4`, ties to even); the binary floating-point value Python rounds is not.
- FAISS pads short answers with slot -1. Python then reads the last snapshot slot; the model follows Python's indexing rule (`SemanticSearch.PyIndex`) but gives no meaning to the padding.
- `datetime.fromisoformat` in `parse_datetime` is a parameter. The `%Y-%m-%d` reading of `strptime` is modelled in full, but only for ASCII digits.
- `str.lower()` is modelled for ASCII letters only (`Strings.Lower`). Unicode case folding is not.
- SQL is not modelled as text. `ORDER BY` in the dataset listing is a parameter: a function from the sort key to the ordered rows. So is `ORDER BY keyword` in the searcher's keyword query: a function from the keyword texts to their order. Neither function is required to return a rearrangement of its input. The lemmas that need this (EveryRowIsListed, ListedRowsAreTableRows, EnrichmentListsRowKeywords) take it as a hypothesis, and the sortedness of either order is not stated. SQLite leaves the order of ties under `ORDER BY count DESC` unspecified. The model settles them by its own stable sort, and no contract states their order.
- SortKeyFor: every attribute of the dataset class that is not a column, the relationships among them, is taken to end the listing with a 500. What SQLAlchemy does when asked to order by a relationship is not modelled.
- `LIMIT 1` and `.first()` lookups take the first matching row in storage order.
- The SQLAlchemy session is modelled as a class (`DbSchema.Session`) that keeps only what the schema constrains: primary keys, NOT NULL columns, the unique file identifier and the children's parent key. Flushing, identity maps, lazy loading and transactions beyond commit and rollback are not modelled.
- UUIDs, `datetime.now()`, `created_at`/`downloaded_at` timestamps and `processing_time_ms` are left out; a fresh id is a parameter.
- Logging, the text of the health-check error messages and the paths reported by `generate_all` are left out.
- `get_by_file_identifier` and `get_all` in the repository are left out; they are straightforward queries used by no modelled operation.
- `BatchProcessor.close` and the batch logging helpers are left out: they only close the session and write the log.
- The FastAPI application wiring, CORS, the root endpoint, `get_db` and the database engine set-up are left out; the routes receive the table as a value.
- `ApiDependencies.SearchProvider.GetSemanticSearch`: the 500 answer for a load failure other than a missing file is not modelled, because the only load failure the searcher model has is a missing file.
- `ApiSearchRoutes.HybridSearch` and the lemmas about it require `top_k >= 1`, which the request schema guarantees (`ApiSchemas.ValidateHybridSearch`).
- JsonValue.Text: a JSON value that is not a string reads as None wherever the source expects text, and the row is stored without it. Python keeps the value itself: a number or boolean given as a title, name or other text field is stored as SQLite stores it, and a list or object cannot be bound by sqlite3, so the commit fails and the id yields None.
- JsonExtractor.NumOf: a boolean, list or object given as a coordinate reads as None, so it is stored as "None". Python keeps it and stores `str()` of it.
- JsonExtractor.ParseData: a `publicationDate`, `metadataDate` or `updatedDate` that is truthy but not a string reads as no date. In Python, `'T' in value` (or `'+' in value`) raises TypeError on a number or boolean, and `strptime` or `fromisoformat` raises TypeError on a list or object, so the extraction fails. A list or object holding "T" hits an AttributeError, which is caught and gives None.
- JsonLdExtractor.ParseData: a truthy `datePublished` that is not a string reads as no date, where Python's `parse_date` raises TypeError as above and the extraction fails.
- JsonExtractor.RelationshipOf: a `relation` that is not a string fails the JSON extraction, so the other formats may still be merged and saved. In Python a list without a "#" element or an object without a "#" key is kept as the relation type, the commit then fails and the id yields None; only with "#" present (`.split` raises AttributeError) or for null, a boolean or a number (`in` raises TypeError) does the extraction fail as modelled.
- JsonLdExtractor.BoolOf: a numeral equal to 0 or 1 is recognised as written (a zero mantissa, or `1` with zeros after its point); `1e0`, `0.1e1` or a numeral that only rounds to 1.0 as a float is treated as refused, where Python's Boolean column accepts it.
- Iterating over a JSON object that is not empty fails in the model. Python would iterate its keys, whose order a map cannot represent. Where the keys are dropped whatever their order, as for an object `creator` in CreatorIds, the model gives Python's empty result instead.
- The metadata snapshot is a value; pickling it to disk and the index file's format are left out.
- `backend/etl/core_interfaces.py`, `backend/api/app.py`, `backend/api/config.py`, `backend/embeddings/config.py` (except its constants), `backend/database/indexing.py` and the scripts under `backend/scripts` are not part of this model.

## Findings

| source | as written | input that shows it | evidently intended | confidence | as-written member | corrected member |
|---|---|---|---|---|---|---|
| backend/api/routes/datasets.py:196 | the contact name is the f-string `"{given} {family}"` stripped, so a missing part is printed as the word None | given_name "Jane", family_name None: the name is "Jane None" | a missing part counts as empty, so the name is "Jane" | not executed | ApiDatasetRoutes.ContactNameShowsNone | ApiDatasetRoutes.ContactNameDropsMissingPart |
| backend/api/routes/utils.py:143-193 | author statistics group on the coalesced name before stripping it, and strip only when displaying | in one dataset, a contact with full_name "Doe" and another with only family_name "Doe" (no full or given name), same organisation: the groups "Doe" and " Doe" are both shown as "Doe", so the author is listed twice | one entry per displayed name and organisation, counting its distinct datasets | not executed | ApiUtilityRoutes.AuthorListedTwice | ApiUtilityRoutes.AuthorStatsCountDatasets |
