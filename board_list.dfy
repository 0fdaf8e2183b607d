/** The project-board list page: a paged list of posts searched by `name`. */
module BoardList {
  import opened Wrappers
  import Paging

  /** One post of the list. */
  datatype BoardPost = BoardPost(id: int, name: string, content: string, writer: string, created: string)

  /** The page as it mounts: the shared paged list, with the keyword sent as `name`. */
  method NewBoardPage() returns (p: Paging.PagedList<BoardPost>)
    ensures fresh(p)
    ensures p.filterKey == "name" && p.pageSize == 10
    ensures p.items == [] && p.page == 1 && p.totalPages == 1 && p.totalCount == 0
    ensures p.keyword == "" && p.searchInput == "" && !p.loading
  {
    p := new Paging.PagedList("name");
  }

  /** Browsing and searching: out-of-range moves are ignored, a search restarts at page 1. */
  method BrowseAndSearch(next: Paging.PageResponse<BoardPost>)
    requires next.totalPages >= 3 && next.page == 1
  {
    var p := NewBoardPage();
    var req := p.BeginLoad();
    assert req.filter.None? && req.filterKey == "name";
    var reload := p.FinishLoad(Received(next));
    assert !reload && !p.loading && p.totalPages >= 3;
    reload := p.GoPage(0);
    assert !reload && p.page == 1;
    reload := p.GoPage(3);
    assert reload && p.page == 3;
    reload := p.FinishLoad(Failed);
    assert !reload && p.page == 3 && p.items == next.list;
    p.searchInput := "plan";
    reload := p.OnSearchSubmit();
    assert reload && p.page == 1 && p.keyword == "plan";
    req := p.BeginLoad();
    assert req.filter == Some("plan");
  }
}
