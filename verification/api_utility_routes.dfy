// backend/api/routes/utils.py: the health check and the database
// statistics. The database, the embeddings table and the index file are
// parameters: whether `SELECT 1` succeeds, what `SELECT COUNT(*) FROM
// embeddings` returns or raises, and whether the index file exists.

module ApiUtilityRoutes {
  import opened Common
  import opened Strings
  import opened DbSchema
  import opened Collections
  import opened ApiSchemas
  import opened ApiDatasetRoutes

  const Version: string := "1.0.0"

  // --------------------------------------------------------------- health

  /** The error entries, one per failed check; the messages' texts are not modelled. */
  datatype HealthError = DatabaseError | NoEmbeddings | EmbeddingsCheckError | IndexMissing

  datatype HealthCheckResponse = HealthCheckResponse(
    status: string,
    database: bool,
    embeddings: bool,
    faissIndex: bool,
    version: string,
    errors: Option<seq<HealthError>>)

  /** The position of the check that reports `e`: database, embeddings, index. */
  function CheckOrder(e: HealthError): nat {
    match e
    case DatabaseError => 0
    case NoEmbeddings => 1
    case EmbeddingsCheckError => 1
    case IndexMissing => 2
  }

  /**
   * `health_check`: the embeddings are healthy when the count query returns
   * a positive number; the status is "healthy" exactly when all three
   * checks pass, and then there is no error list; otherwise the list names
   * each failed check once, in the order the checks run.
   */
  function HealthCheck(databaseUp: bool, embeddingCount: Result<Option<int>>, indexExists: bool)
    : (h: HealthCheckResponse)
    ensures h.database == databaseUp && h.faissIndex == indexExists && h.version == Version
    ensures h.embeddings <==> embeddingCount.Ok? && embeddingCount.value.Some? && embeddingCount.value.value > 0
    ensures h.status == "healthy" <==> h.database && h.embeddings && h.faissIndex
    ensures h.status == "healthy" || h.status == "unhealthy"
    ensures h.errors.None? <==> h.status == "healthy"
    ensures h.errors.Some? ==>
      (DatabaseError in h.errors.value <==> !databaseUp)
      && (EmbeddingsCheckError in h.errors.value <==> embeddingCount.Failed?)
      && (NoEmbeddings in h.errors.value <==> embeddingCount.Ok? && !h.embeddings)
      && (IndexMissing in h.errors.value <==> !indexExists)
      && forall i, j :: 0 <= i < j < |h.errors.value| ==> CheckOrder(h.errors.value[i]) < CheckOrder(h.errors.value[j])
  {
    var embeddingsHealthy := embeddingCount.Ok? && embeddingCount.value.Some? && embeddingCount.value.value > 0;
    var errors :=
      (if databaseUp then [] else [DatabaseError])
      + (if embeddingCount.Failed? then [EmbeddingsCheckError] else if embeddingsHealthy then [] else [NoEmbeddings])
      + (if indexExists then [] else [IndexMissing]);
    var status := if databaseUp && embeddingsHealthy && indexExists then "healthy" else "unhealthy";
    assert "healthy" != "unhealthy" by {
      assert |"healthy"| != |"unhealthy"|;
    }
    HealthCheckResponse(status, databaseUp, embeddingsHealthy, indexExists, Version, if errors == [] then None else Some(errors))
  }

  // ----------------------------------------------------------- statistics

  datatype AuthorStat = AuthorStat(name: string, organization: Option<string>, count: nat)
  datatype NameCount = NameCount(name: string, count: nat)

  datatype DatabaseStats = DatabaseStats(
    totalDatasets: nat,
    totalKeywords: nat,
    totalContacts: nat,
    totalMetadataDocuments: nat,
    totalOnlineResources: nat,
    metadataFormats: map<string, nat>,
    embeddingsGenerated: bool,
    embeddingModelName: Option<string>,
    embeddingDimension: Option<int>,
    topAuthors: seq<AuthorStat>,
    topOrganizations: seq<NameCount>,
    topKeywords: seq<NameCount>)

  /** SQLite's `TRIM(x) = ''`: TRIM removes spaces only. */
  predicate SqlBlank(s: string) {
    forall i :: 0 <= i < |s| ==> s[i] == ' '
  }

  /** The formats that occur among the documents. */
  function Formats(docs: seq<DocumentRow>): set<string> {
    set i | 0 <= i < |docs| :: docs[i].format
  }

  /** The format of each document, in order. */
  function FormatsInOrder(docs: seq<DocumentRow>): (fs: seq<string>)
    ensures |fs| == |docs| && forall i :: 0 <= i < |docs| ==> fs[i] == docs[i].format
  {
    seq(|docs|, i requires 0 <= i < |docs| => docs[i].format)
  }

  /** The `WHERE format = f` of one group. */
  function FormatIs(f: string): DocumentRow -> bool {
    (d: DocumentRow) => d.format == f
  }

  /** The documents of format `f` are as many as the occurrences of `f` among the formats. */
  lemma {:induction false} FormatCount(docs: seq<DocumentRow>, f: string)
    ensures |Filter(docs, FormatIs(f))| == multiset(FormatsInOrder(docs))[f]
  {
    if docs != [] {
      var init := docs[..|docs| - 1];
      FormatCount(init, f);
      assert FormatsInOrder(docs) == FormatsInOrder(init) + [docs[|docs| - 1].format];
    }
  }

  /**
   * `GROUP BY format` with `COUNT(id)`: one entry per format that occurs,
   * counting the documents of that format.
   */
  function MetadataFormats(docs: seq<DocumentRow>): (m: map<string, nat>)
    ensures m.Keys == Formats(docs)
    ensures forall f :: f in m ==> 1 <= m[f] == multiset(FormatsInOrder(docs))[f] <= |docs|
  {
    var m := map f | f in Formats(docs) :: |Filter(docs, FormatIs(f))|;
    forall f | f in m ensures 1 <= m[f] == multiset(FormatsInOrder(docs))[f] {
      FormatCount(docs, f);
      var i :| 0 <= i < |docs| && docs[i].format == f;
      assert docs[i] in Filter(docs, FormatIs(f));
    }
    m
  }

  datatype EmbeddingInfo = EmbeddingInfo(count: nat, modelName: Option<string>, dimension: Option<int>)

  /**
   * The embeddings block: a raising query leaves the count at 0 and both
   * details unset; otherwise the count is the number of rows and, when
   * there is one, the details come from the first row.
   */
  function EmbeddingsInfo(embeddings: Result<seq<EmbeddingRow>>): (e: EmbeddingInfo)
    ensures embeddings.Failed? ==> e == EmbeddingInfo(0, None, None)
    ensures embeddings.Ok? ==> e.count == |embeddings.value|
    ensures e.modelName.Some? || e.dimension.Some? ==> e.count > 0
    ensures embeddings.Ok? && |embeddings.value| > 0 ==>
      e.modelName == embeddings.value[0].embeddingModel && e.dimension == embeddings.value[0].embeddingDimension
  {
    match embeddings
    case Failed(_) => EmbeddingInfo(0, None, None)
    case Ok(rows) =>
      if |rows| > 0 then EmbeddingInfo(|rows|, rows[0].embeddingModel, rows[0].embeddingDimension)
      else EmbeddingInfo(0, None, None)
  }

  /**
   * The grouped name of a contact:
   * `COALESCE(full_name, CONCAT(COALESCE(given_name, ''), ' ', COALESCE(family_name, '')))`.
   */
  function AuthorName(c: ContactRow): string {
    if c.fullName.Some? then c.fullName.value else c.givenName.GetOr("") + " " + c.familyName.GetOr("")
  }

  /** The name the statistics show for a contact. */
  function DisplayName(c: ContactRow): string {
    Strip(AuthorName(c))
  }

  function ContactDataset(c: ContactRow): string {
    c.datasetId
  }

  /** Text that SQLite's TRIM empties is whitespace to Python too. */
  lemma SqlBlankIsBlank(s: string)
    ensures SqlBlank(s) ==> Blank(s)
  {
  }

  /** The author query's WHERE: the coalesced name is not SQL-blank. */
  predicate SqlNamed(c: ContactRow) {
    !SqlBlank(AuthorName(c))
  }

  /** The author query's GROUP BY: the coalesced name, unstripped, and the organisation. */
  function RawAuthorKey(c: ContactRow): (string, Option<string>) {
    (AuthorName(c), c.organizationName)
  }

  /** The comprehension's check, `author.name and author.name.strip()`. */
  predicate ShownAuthor(g: Tallied<(string, Option<string>)>) {
    g.key.0 != [] && !Blank(g.key.0)
  }

  /**
   * The author groups as written: the contacts whose coalesced name is not
   * SQL-blank, grouped on that name unstripped and the organisation, then
   * the groups whose name is more than whitespace.
   */
  function RawAuthorGroups(contacts: seq<ContactRow>): (g: seq<Tallied<(string, Option<string>)>>)
    ensures Descending(g)
    ensures forall j :: 0 <= j < |g| ==> ShownAuthor(g[j]) && g[j].count >= 1
  {
    var groups := Tally(Filter(contacts, SqlNamed), RawAuthorKey, ContactDataset);
    var order := (t: Tallied<(string, Option<string>)>) => -(t.count as int);
    assert SortedBy(groups, order);
    FilterKeepsSortedBy(groups, ShownAuthor, order);
    var g := Filter(groups, ShownAuthor);
    assert forall i, j :: 0 <= i < j < |g| ==> order(g[i]) <= order(g[j]);
    g
  }

  /**
   * The author statistics as written: groups are formed on the coalesced
   * name before it is stripped, so two groups can show the same name.
   */
  function AuthorStatsAsWritten(table: Table): (r: seq<AuthorStat>)
    ensures forall j :: 0 <= j < |r| ==> r[j].name != [] && Trimmed(r[j].name) && r[j].count >= 1
    ensures forall i, j :: 0 <= i < j < |r| ==> r[i].count >= r[j].count
  {
    ShownAsWritten(AllContacts(table))
  }

  /** The raw groups of `contacts`, each shown with its name stripped. */
  function ShownAsWritten(contacts: seq<ContactRow>): (r: seq<AuthorStat>)
    ensures forall j :: 0 <= j < |r| ==> r[j].name != [] && Trimmed(r[j].name) && r[j].count >= 1
    ensures forall i, j :: 0 <= i < j < |r| ==> r[i].count >= r[j].count
  {
    var kept := RawAuthorGroups(contacts);
    forall j | 0 <= j < |kept| ensures Strip(kept[j].key.0) != [] && Trimmed(Strip(kept[j].key.0)) {
      StripTrims(kept[j].key.0);
    }
    seq(|kept|, j requires 0 <= j < |kept| => AuthorStat(Strip(kept[j].key.0), kept[j].key.1, kept[j].count))
  }

  /** The datasets with a contact whose coalesced name, unstripped, and organisation are `key`. */
  function RawAuthorDatasets(table: Table, key: (string, Option<string>)): set<string> {
    OwnersWith(AllContacts(table), RawAuthorKey, ContactDataset, key)
  }

  /**
   * As written, every contact whose name is more than whitespace is listed
   * under its shown name and organisation, counting the distinct datasets
   * with a contact of the same unstripped name and organisation.
   */
  lemma AuthorStatsAsWrittenCount(table: Table, c: ContactRow)
    requires c in AllContacts(table) && Named(c)
    ensures var r := AuthorStatsAsWritten(table);
      exists j :: 0 <= j < |r| && r[j].name == DisplayName(c) && r[j].organization == c.organizationName
        && r[j].count == |RawAuthorDatasets(table, RawAuthorKey(c))|
  {
    var contacts := AllContacts(table);
    var m :| 0 <= m < |contacts| && contacts[m] == c;
    RawAuthorGroupCount(contacts, m);
    var kept := RawAuthorGroups(contacts);
    var j :| 0 <= j < |kept| && kept[j].key == RawAuthorKey(c)
      && kept[j].count == |OwnersWith(contacts, RawAuthorKey, ContactDataset, RawAuthorKey(c))|;
    ShownEntry(contacts, j);
    var r := AuthorStatsAsWritten(table);
    assert r == ShownAsWritten(contacts);
    assert r[j] == AuthorStat(DisplayName(c), c.organizationName, kept[j].count);
  }

  /** A named contact's raw group counts the datasets with a contact of the same raw key. */
  lemma RawAuthorGroupCount(contacts: seq<ContactRow>, m: nat)
    requires m < |contacts| && Named(contacts[m])
    ensures exists j ::
      && 0 <= j < |RawAuthorGroups(contacts)| && RawAuthorGroups(contacts)[j].key == RawAuthorKey(contacts[m])
      && RawAuthorGroups(contacts)[j].count == |OwnersWith(contacts, RawAuthorKey, ContactDataset, RawAuthorKey(contacts[m]))|
  {
    var named := Filter(contacts, SqlNamed);
    var k := RawAuthorKey(contacts[m]);
    assert SqlNamed(contacts[m]) by {
      var n := AuthorName(contacts[m]);
      var w :| 0 <= w < |n| && !IsSpace(n[w]);
    }
    forall i | 0 <= i < |contacts| && RawAuthorKey(contacts[i]) == k ensures contacts[i] in named {
      assert SqlNamed(contacts[i]);
    }
    OwnersOfSubsequence(contacts, named, RawAuthorKey, ContactDataset, k);
    RawAuthorGroupShown(contacts, m);
    var kept := RawAuthorGroups(contacts);
    var j :| 0 <= j < |kept| && kept[j].key == k;
    var groups := Tally(named, RawAuthorKey, ContactDataset);
    assert kept[j] in groups;
    var t :| 0 <= t < |groups| && groups[t] == kept[j];
    assert kept[j].count == |OwnersWith(named, RawAuthorKey, ContactDataset, k)|;
  }

  /** A contact whose coalesced name is more than whitespace has its own group. */
  lemma RawAuthorGroupShown(contacts: seq<ContactRow>, m: nat)
    requires m < |contacts| && Named(contacts[m])
    ensures exists j :: 0 <= j < |RawAuthorGroups(contacts)| && RawAuthorGroups(contacts)[j].key == RawAuthorKey(contacts[m])
  {
    var named := Filter(contacts, SqlNamed);
    var c := contacts[m];
    assert SqlNamed(c) by {
      var n := AuthorName(c);
      var w :| 0 <= w < |n| && !IsSpace(n[w]);
    }
    var i :| 0 <= i < |named| && named[i] == c;
    TallyCovers(named, RawAuthorKey, ContactDataset, i);
    var groups := Tally(named, RawAuthorKey, ContactDataset);
    var j :| 0 <= j < |groups| && groups[j].key == RawAuthorKey(c);
    assert ShownAuthor(groups[j]);
    assert groups[j] in RawAuthorGroups(contacts);
  }

  /** Two named contacts with different raw keys have two different groups. */
  lemma RawAuthorGroupsTwo(contacts: seq<ContactRow>, ma: nat, mb: nat)
    requires ma < |contacts| && mb < |contacts| && Named(contacts[ma]) && Named(contacts[mb])
    requires RawAuthorKey(contacts[ma]) != RawAuthorKey(contacts[mb])
    ensures exists i, j ::
      && 0 <= i < |RawAuthorGroups(contacts)| && 0 <= j < |RawAuthorGroups(contacts)| && i != j
      && RawAuthorGroups(contacts)[i].key == RawAuthorKey(contacts[ma])
      && RawAuthorGroups(contacts)[j].key == RawAuthorKey(contacts[mb])
  {
    RawAuthorGroupShown(contacts, ma);
    RawAuthorGroupShown(contacts, mb);
  }

  /** The full name `n` and the family name `n` group apart but show alike. */
  lemma FullAndFamilyName(a: ContactRow, b: ContactRow, n: string)
    requires n != [] && Trimmed(n)
    requires a.fullName == Some(n) && b.fullName.None? && b.givenName.None? && b.familyName == Some(n)
    ensures Named(a) && Named(b) && RawAuthorKey(a) != RawAuthorKey(b)
    ensures Strip(AuthorName(a)) == n && Strip(AuthorName(b)) == n
  {
    assert AuthorName(a) == n;
    assert AuthorName(b) == " " + n;
    assert n != " " + n by {
      assert |n| != |" " + n|;
    }
    assert !IsSpace(n[0]) && (" " + n)[1] == n[0];
    StripTrimmed(n);
    StripSpaceBefore(n);
  }

  /** The two contacts of `AuthorListedTwice`, among `contacts`. */
  lemma ShownTwice(contacts: seq<ContactRow>, ma: nat, mb: nat, n: string)
    requires n != [] && Trimmed(n) && ma < |contacts| && mb < |contacts|
    requires contacts[ma].fullName == Some(n) && contacts[mb].fullName.None?
    requires contacts[mb].givenName.None? && contacts[mb].familyName == Some(n)
    requires contacts[ma].organizationName == contacts[mb].organizationName
    ensures var r := ShownAsWritten(contacts);
      exists i, j :: 0 <= i < |r| && 0 <= j < |r| && i != j
        && r[i].name == r[j].name == n && r[i].organization == r[j].organization == contacts[ma].organizationName
  {
    FullAndFamilyName(contacts[ma], contacts[mb], n);
    RawAuthorGroupsTwo(contacts, ma, mb);
    var kept := RawAuthorGroups(contacts);
    var i, j :| 0 <= i < |kept| && 0 <= j < |kept| && i != j
      && kept[i].key == RawAuthorKey(contacts[ma]) && kept[j].key == RawAuthorKey(contacts[mb]);
    ShownEntry(contacts, i);
    ShownEntry(contacts, j);
  }

  /** Entry `i` shows raw group `i` with its name stripped. */
  lemma ShownEntry(contacts: seq<ContactRow>, i: nat)
    requires i < |RawAuthorGroups(contacts)|
    ensures var g := RawAuthorGroups(contacts)[i];
      i < |ShownAsWritten(contacts)| && ShownAsWritten(contacts)[i] == AuthorStat(Strip(g.key.0), g.key.1, g.count)
  {
  }

  /**
   * A contact with full name `n` and one with only the family name `n`, both
   * of the same organisation, are listed as two authors both named `n`
   * (for example "Doe" and " Doe", both shown as "Doe").
   */
  lemma AuthorListedTwice(table: Table, a: ContactRow, b: ContactRow, n: string)
    requires n != [] && Trimmed(n)
    requires a in AllContacts(table) && b in AllContacts(table)
    requires a.fullName == Some(n) && b.fullName.None? && b.givenName.None? && b.familyName == Some(n)
    requires a.organizationName == b.organizationName
    ensures var r := AuthorStatsAsWritten(table);
      exists i, j :: 0 <= i < |r| && 0 <= j < |r| && i != j
        && r[i].name == r[j].name == n && r[i].organization == r[j].organization == a.organizationName
  {
    var contacts := AllContacts(table);
    var ma :| 0 <= ma < |contacts| && contacts[ma] == a;
    var mb :| 0 <= mb < |contacts| && contacts[mb] == b;
    ShownTwice(contacts, ma, mb, n);
    var r := ShownAsWritten(contacts);
    var i, j :| 0 <= i < |r| && 0 <= j < |r| && i != j
      && r[i].name == r[j].name == n && r[i].organization == r[j].organization == a.organizationName;
    assert AuthorStatsAsWritten(table) == r;
  }

  /** The grouping the statistics intend: the shown name and the organisation. */
  function AuthorKey(c: ContactRow): (string, Option<string>) {
    (DisplayName(c), c.organizationName)
  }

  /** A contact whose name is more than whitespace. */
  predicate Named(c: ContactRow) {
    !Blank(AuthorName(c))
  }

  /** The datasets with a contact shown under `name` for `organization`. */
  function AuthorDatasets(table: Table, name: string, organization: Option<string>): set<string> {
    OwnersWith(AllContacts(table), AuthorKey, ContactDataset, (name, organization))
  }

  /**
   * The contacts whose name is more than whitespace, grouped on the name
   * they show and their organisation, largest group first.
   */
  function AuthorGroups(contacts: seq<ContactRow>): (g: seq<Tallied<(string, Option<string>)>>)
    ensures Descending(g) && DistinctKeys(g)
    ensures forall j :: 0 <= j < |g| ==> g[j].key.0 != [] && Trimmed(g[j].key.0) && g[j].count >= 1
  {
    var named := Filter(contacts, Named);
    var g := Tally(named, AuthorKey, ContactDataset);
    forall j | 0 <= j < |g| ensures g[j].key.0 != [] && Trimmed(g[j].key.0) {
      TallyEntryHasRow(named, AuthorKey, ContactDataset, j);
      var i :| 0 <= i < |named| && AuthorKey(named[i]) == g[j].key;
      StripTrims(AuthorName(named[i]));
    }
    g
  }

  /** Contacts shown under the same name are either both named or both blank. */
  lemma SameShownName(a: ContactRow, b: ContactRow)
    requires DisplayName(a) == DisplayName(b) && Named(a)
    ensures Named(b)
  {
    StripTrims(AuthorName(a));
    StripTrims(AuthorName(b));
  }

  /** A named contact's group counts the datasets with a contact shown the same way. */
  lemma AuthorGroupsCount(contacts: seq<ContactRow>, m: nat)
    requires m < |contacts| && Named(contacts[m])
    ensures exists j ::
      && 0 <= j < |AuthorGroups(contacts)|
      && AuthorGroups(contacts)[j].key == AuthorKey(contacts[m])
      && AuthorGroups(contacts)[j].count == |OwnersWith(contacts, AuthorKey, ContactDataset, AuthorKey(contacts[m]))|
  {
    var named := Filter(contacts, Named);
    var k := AuthorKey(contacts[m]);
    forall i | 0 <= i < |contacts| && AuthorKey(contacts[i]) == k ensures contacts[i] in named {
      SameShownName(contacts[m], contacts[i]);
    }
    OwnersOfSubsequence(contacts, named, AuthorKey, ContactDataset, k);
    assert contacts[m] in named;
    var i :| 0 <= i < |named| && named[i] == contacts[m];
    TallyCovers(named, AuthorKey, ContactDataset, i);
    var g := Tally(named, AuthorKey, ContactDataset);
    var j :| 0 <= j < |g| && g[j].key == k;
    assert g[j].count == |OwnersWith(named, AuthorKey, ContactDataset, k)|;
    assert AuthorGroups(contacts) == g;
  }

  /**
   * The author statistics grouped on the name they show: every name is
   * non-empty with no whitespace at either end, no name and organisation
   * pair appears twice, and the counts never increase.
   */
  function AuthorStats(table: Table): (r: seq<AuthorStat>)
    ensures forall j :: 0 <= j < |r| ==> r[j].name != [] && Trimmed(r[j].name) && r[j].count >= 1
    ensures forall i, j :: 0 <= i < j < |r| ==> r[i].count >= r[j].count
    ensures forall i, j :: 0 <= i < j < |r| ==> r[i].name != r[j].name || r[i].organization != r[j].organization
  {
    StatsOf(AuthorGroups(AllContacts(table)))
  }

  /** One author entry per group. */
  function StatsOf(g: seq<Tallied<(string, Option<string>)>>): (r: seq<AuthorStat>)
    ensures |r| == |g|
    ensures forall j :: 0 <= j < |g| ==> r[j] == AuthorStat(g[j].key.0, g[j].key.1, g[j].count)
  {
    seq(|g|, j requires 0 <= j < |g| => AuthorStat(g[j].key.0, g[j].key.1, g[j].count))
  }

  /**
   * Every contact with a name that is more than whitespace is counted: its
   * shown name and organisation are listed with the number of distinct
   * datasets that have a contact shown that way.
   */
  lemma AuthorStatsCountDatasets(table: Table, c: ContactRow)
    requires c in AllContacts(table) && Named(c)
    ensures var r := AuthorStats(table);
      exists j :: 0 <= j < |r| && r[j].name == DisplayName(c) && r[j].organization == c.organizationName
        && r[j].count == |AuthorDatasets(table, DisplayName(c), c.organizationName)|
  {
    var contacts := AllContacts(table);
    var m :| 0 <= m < |contacts| && contacts[m] == c;
    AuthorGroupsCount(contacts, m);
    var g := AuthorGroups(contacts);
    var j :| 0 <= j < |g| && g[j].key == AuthorKey(c) && g[j].count == |OwnersWith(contacts, AuthorKey, ContactDataset, AuthorKey(c))|;
    assert AuthorStats(table) == StatsOf(g);
  }

  /** The organisation and keyword query's WHERE: the name is not SQL-blank. */
  function NamedRows<T>(rows: seq<T>, name: T -> string): (r: seq<T>)
    ensures forall k :: 0 <= k < |r| ==> r[k] in rows && !SqlBlank(name(r[k]))
    ensures forall i :: 0 <= i < |rows| && !SqlBlank(name(rows[i])) ==> rows[i] in r
  {
    Filter(rows, (x: T) => !SqlBlank(name(x)))
  }

  /** The comprehension's check, `name and name.strip()`, on the grouped rows. */
  function ShownGroups(groups: seq<Tallied<string>>): (r: seq<Tallied<string>>)
    requires Descending(groups) && DistinctKeys(groups)
    ensures Descending(r) && DistinctKeys(r)
    ensures forall k :: 0 <= k < |r| ==> r[k] in groups && !Blank(r[k].key)
    ensures forall k :: 0 <= k < |groups| && !Blank(groups[k].key) ==> groups[k] in r
  {
    var shown := (g: Tallied<string>) => g.key != [] && !Blank(g.key);
    var order := (g: Tallied<string>) => -(g.count as int);
    assert SortedBy(groups, order);
    FilterKeepsSortedBy(groups, shown, order);
    FilterKeepsDistinctKeys(groups, shown);
    var r := Filter(groups, shown);
    assert forall i, j :: 0 <= i < j < |r| ==> order(r[i]) <= order(r[j]);
    r
  }

  /**
   * The organisation and keyword statistics: the rows grouped on their name
   * with their distinct datasets counted, largest first, every name more
   * than whitespace and none listed twice.
   */
  function NameCounts<T>(rows: seq<T>, name: T -> string, owner: T -> string): (r: seq<NameCount>)
    ensures forall j :: 0 <= j < |r| ==> !Blank(r[j].name) && r[j].count == |OwnersWith(rows, name, owner, r[j].name)| >= 1
    ensures forall i, j :: 0 <= i < j < |r| ==> r[i].count >= r[j].count && r[i].name != r[j].name
  {
    var named := NamedRows(rows, name);
    var kept := ShownGroups(Tally(named, name, owner));
    forall j | 0 <= j < |kept| ensures kept[j].count == |OwnersWith(rows, name, owner, kept[j].key)| {
      var k := kept[j].key;
      SqlBlankIsBlank(k);
      OwnersOfSubsequence(rows, named, name, owner, k);
    }
    seq(|kept|, j requires 0 <= j < |kept| => NameCount(kept[j].key, kept[j].count))
  }

  /** Every row whose name is more than whitespace has its name listed. */
  lemma NameCountsCover<T>(rows: seq<T>, name: T -> string, owner: T -> string, i: nat)
    requires i < |rows| && !Blank(name(rows[i]))
    ensures exists j :: 0 <= j < |NameCounts(rows, name, owner)| && NameCounts(rows, name, owner)[j].name == name(rows[i])
  {
    var named := NamedRows(rows, name);
    var groups := Tally(named, name, owner);
    var kept := ShownGroups(groups);
    SqlBlankIsBlank(name(rows[i]));
    var a :| 0 <= a < |named| && named[a] == rows[i];
    TallyCovers(named, name, owner, a);
    var g :| 0 <= g < |groups| && groups[g].key == name(rows[i]);
    var j :| 0 <= j < |kept| && kept[j] == groups[g];
    assert NameCounts(rows, name, owner)[j].name == name(rows[i]);
  }

  predicate HasOrganization(c: ContactRow) {
    c.organizationName.Some?
  }

  function OrganizationOf(c: ContactRow): string {
    c.organizationName.GetOr("")
  }

  function KeywordText(k: KeywordRow): string {
    k.keyword
  }

  function KeywordDataset(k: KeywordRow): string {
    k.datasetId
  }

  /** The organisation statistics: the contacts with an organisation, grouped on it. */
  function OrganizationStats(table: Table): seq<NameCount> {
    NameCounts(Filter(AllContacts(table), HasOrganization), OrganizationOf, ContactDataset)
  }

  /** The keyword statistics: the keyword rows, grouped on the keyword. */
  function KeywordStats(table: Table): seq<NameCount> {
    NameCounts(AllKeywords(table), KeywordText, KeywordDataset)
  }

  /**
   * `get_statistics`: the row counts of the five tables, the format
   * breakdown, the embeddings details and the three ranked lists.
   */
  function GetStatistics(table: Table, embeddings: Result<seq<EmbeddingRow>>): (s: DatabaseStats)
    ensures s.totalDatasets == |table| && s.totalKeywords == |AllKeywords(table)| && s.totalContacts == |AllContacts(table)|
    ensures s.totalMetadataDocuments == |AllDocuments(table)| && s.totalOnlineResources == |AllResources(table)|
    ensures s.metadataFormats.Keys == Formats(AllDocuments(table))
    ensures forall f :: f in s.metadataFormats ==> s.metadataFormats[f] == multiset(FormatsInOrder(AllDocuments(table)))[f]
    ensures s.embeddingsGenerated <==> embeddings.Ok? && |embeddings.value| > 0
    ensures !s.embeddingsGenerated ==> s.embeddingModelName.None? && s.embeddingDimension.None?
    ensures s.embeddingsGenerated ==>
      s.embeddingModelName == embeddings.value[0].embeddingModel && s.embeddingDimension == embeddings.value[0].embeddingDimension
    ensures s.topAuthors == AuthorStatsAsWritten(table) && s.topOrganizations == OrganizationStats(table)
      && s.topKeywords == KeywordStats(table)
  {
    var info := EmbeddingsInfo(embeddings);
    DatabaseStats(|table|, |AllKeywords(table)|, |AllContacts(table)|, |AllDocuments(table)|, |AllResources(table)|,
                  MetadataFormats(AllDocuments(table)), info.count > 0, info.modelName, info.dimension,
                  AuthorStatsAsWritten(table), OrganizationStats(table), KeywordStats(table))
  }
}
