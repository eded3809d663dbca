// backend/api/dependencies.py: the shared semantic-search instance the
// routes receive, and the pagination parameters they validate.

module ApiDependencies {
  import opened Common
  import opened SemanticSearch

  /** `Settings.max_page_size`. */
  const MaxPageSizeSetting: int := 100

  datatype Pagination = Pagination(page: int, pageSize: int, offset: int)

  /**
   * `get_pagination_params`: a page below 1, a page size below 1 or above
   * the configured maximum is a 400; otherwise page and size come back with
   * the offset of the page's first row.
   */
  function GetPaginationParams(page: int, pageSize: int): (r: Result<Pagination>)
    ensures r.Ok? <==> page >= 1 && 1 <= pageSize <= MaxPageSizeSetting
    ensures r.Failed? ==> r.reason == BadRequest
    ensures r.Ok? ==> r.value.page == page && r.value.pageSize == pageSize && r.value.offset == (page - 1) * pageSize
  {
    if page < 1 then Failed(BadRequest)
    else if pageSize < 1 then Failed(BadRequest)
    else if pageSize > MaxPageSizeSetting then Failed(BadRequest)
    else Ok(Pagination(page, pageSize, (page - 1) * pageSize))
  }

  /**
   * The pages tile the rows: page 1 starts at row 0, each page starts where
   * the previous one ended, and row `p` lies on page `p / pageSize + 1`.
   */
  lemma PagesTileRows(pageSize: int, p: nat)
    requires 1 <= pageSize <= MaxPageSizeSetting
    ensures GetPaginationParams(1, pageSize).value.offset == 0
    ensures forall page :: page >= 1 ==>
      GetPaginationParams(page + 1, pageSize).value.offset == GetPaginationParams(page, pageSize).value.offset + pageSize
    ensures var q := GetPaginationParams(p / pageSize + 1, pageSize).value;
      q.offset <= p < q.offset + pageSize
  {
    var page := p / pageSize + 1;
    assert (page - 1) * pageSize == pageSize * (p / pageSize);
    forall page | page >= 1
      ensures GetPaginationParams(page + 1, pageSize).value.offset == GetPaginationParams(page, pageSize).value.offset + pageSize
    {
      assert page * pageSize == (page - 1) * pageSize + pageSize;
    }
  }

  /** The process-wide `_semantic_search_instance`. */
  class SearchProvider {
    var instance: Searcher?

    constructor ()
      ensures instance == null
    {
      instance := null;
    }

    /**
     * `get_semantic_search`: the first call stores a new instance before
     * loading its index and snapshot, and a missing file is a 503; once an
     * instance is stored, every call returns it and raises nothing.
     */
    method GetSemanticSearch(files: StoredFiles) returns (r: Result<Searcher>)
      modifies this
      ensures old(instance) != null ==> instance == old(instance) && r == Ok(instance)
      ensures old(instance) == null ==> instance != null && fresh(instance) && !instance.connected
      ensures old(instance) == null && files.index.None? ==>
        r == Failed(Unavailable) && instance.index.None? && instance.metadata.None?
      ensures old(instance) == null && files.index.Some? && files.metadata.None? ==>
        r == Failed(Unavailable) && instance.index == files.index && instance.metadata.None?
      ensures old(instance) == null && files.index.Some? && files.metadata.Some? ==>
        r == Ok(instance) && instance.index == files.index && instance.metadata == files.metadata
    {
      if instance == null {
        var s := new Searcher();
        instance := s;
        var idx := s.LoadIndex(files);
        if idx.Failed? {
          return Failed(Unavailable);
        }
        var meta := s.LoadMetadata(files);
        if meta.Failed? {
          return Failed(Unavailable);
        }
      }
      r := Ok(instance);
    }
  }

  /** `verify_embeddings_exist`: hands back the instance it was given. */
  function VerifyEmbeddingsExist(search: Searcher): (r: Searcher)
    ensures r == search
  {
    search
  }
}
