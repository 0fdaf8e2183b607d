/**
 * The paged, searchable list behind the project-board list page and the
 * issue list page. Both keep the same state and handle it the same way; they
 * differ only in the item type and in the name of the request's search field.
 */
module Paging {
  import opened Wrappers

  /** The list endpoint's response body. */
  datatype PageResponse<T> = PageResponse(list: seq<T>, page: int, size: int, totalCount: int, totalPages: int)

  /** The list request body: the page, its size and, only for a non-empty keyword, a search field. */
  datatype ListRequest = ListRequest(page: int, size: int, filterKey: string, filter: Option<string>)

  /** `{page: pageNo, size, [key]: kw || undefined}`; an undefined field is left out of the JSON body. */
  function Request(key: string, pageNo: int, size: int, kw: string): (r: ListRequest)
    ensures r.page == pageNo && r.size == size && r.filterKey == key
    ensures r.filter.Some? <==> kw != ""
    ensures r.filter.Some? ==> r.filter.value == kw
  {
    ListRequest(pageNo, size, key, if kw == "" then None else Some(kw))
  }

  /** `goPage(p)` moves only to a page between 1 and the page count. */
  predicate AcceptsPage(p: int, totalPages: int) {
    1 <= p <= totalPages
  }

  /** The previous-page button's `disabled` class. */
  predicate PrevDisabled(page: int) {
    page <= 1
  }

  /** The next-page button's `disabled` class. */
  predicate NextDisabled(page: int, totalPages: int) {
    page >= totalPages
  }

  /** A disabled button's target is one `goPage` would ignore anyway, whatever the state. */
  lemma DisabledButtonsAreIgnored(page: int, totalPages: int)
    ensures PrevDisabled(page) ==> !AcceptsPage(page - 1, totalPages)
    ensures NextDisabled(page, totalPages) ==> !AcceptsPage(page + 1, totalPages)
  {
  }

  /** On a page within range, each button is enabled exactly when `goPage` accepts its target. */
  lemma ButtonsMatchGoPage(page: int, totalPages: int)
    requires 1 <= page <= totalPages
    ensures !PrevDisabled(page) <==> AcceptsPage(page - 1, totalPages)
    ensures !NextDisabled(page, totalPages) <==> AcceptsPage(page + 1, totalPages)
  {
  }

  /**
   * The state of a paged list page. `reload` results say whether the
   * effect keyed on `page` and `keyword` fires again: it does exactly when
   * one of them changed.
   */
  class PagedList<T> {
    const filterKey: string
    const pageSize: int
    var items: seq<T>
    var page: int
    var totalPages: int
    var totalCount: int
    var keyword: string
    var searchInput: string
    var loading: bool

    /** The page as it mounts: first page of one, nothing loaded, no keyword. */
    constructor (key: string)
      ensures filterKey == key && pageSize == 10
      ensures items == [] && page == 1 && totalPages == 1 && totalCount == 0
      ensures keyword == "" && searchInput == "" && !loading
    {
      filterKey, pageSize := key, 10;
      items, page, totalPages, totalCount := [], 1, 1, 0;
      keyword, searchInput, loading := "", "", false;
    }

    /** `goPage(p)`: a page outside 1..totalPages is ignored. */
    method GoPage(p: int) returns (reload: bool)
      modifies this`page
      ensures AcceptsPage(p, totalPages) ==> page == p
      ensures !AcceptsPage(p, totalPages) ==> page == old(page)
      ensures reload <==> page != old(page)
    {
      if p < 1 || p > totalPages {
        return false;
      }
      reload := p != page;
      page := p;
    }

    /** `onSearchSubmit`: back to the first page, searching for what was typed. */
    method OnSearchSubmit() returns (reload: bool)
      modifies this`page, this`keyword
      ensures page == 1 && keyword == searchInput
      ensures reload <==> old(page) != 1 || old(keyword) != searchInput
    {
      reload := page != 1 || keyword != searchInput;
      page := 1;
      keyword := searchInput;
    }

    /** The start of a load: `loading` is raised and the request for the current page and keyword goes out. */
    method BeginLoad() returns (req: ListRequest)
      modifies this`loading
      ensures loading
      ensures req == Request(filterKey, page, pageSize, keyword)
    {
      loading := true;
      req := Request(filterKey, page, pageSize, keyword);
    }

    /**
     * The end of a load: a response replaces the items, the page and both
     * counters; a failure keeps them. Either way `loading` drops.
     */
    method FinishLoad(response: Fetch<PageResponse<T>>) returns (reload: bool)
      modifies this`items, this`page, this`totalPages, this`totalCount, this`loading
      ensures !loading
      ensures response.Received? ==>
                items == response.body.list && page == response.body.page &&
                totalPages == response.body.totalPages && totalCount == response.body.totalCount
      ensures response.Failed? ==>
                items == old(items) && page == old(page) &&
                totalPages == old(totalPages) && totalCount == old(totalCount)
      ensures reload <==> page != old(page)
    {
      reload := false;
      if response.Received? {
        var body := response.body;
        reload := body.page != page;
        items := body.list;
        page := body.page;
        totalPages := body.totalPages;
        totalCount := body.totalCount;
      }
      loading := false;
    }
  }
}
