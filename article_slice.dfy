/**
 * The pagination state of the article list: the current page and the page
 * size, with one reducer that replaces the current page.
 */
module ArticleSlice {

  const InitialPage := 1
  const InitialLimit := 5

  class Pagination {
    var currentPage: int
    var limit: int

    /** The initial state: page 1 of five articles. */
    constructor ()
      ensures currentPage == 1 && limit == 5
    {
      currentPage := InitialPage;
      limit := InitialLimit;
    }

    /** setCurrentPage: the payload becomes the current page; the limit is untouched. */
    method SetCurrentPage(page: int)
      modifies this
      ensures currentPage == page
      ensures limit == old(limit)
    {
      currentPage := page;
    }
  }

  /** Applying the same payload twice leaves the state of applying it once. */
  method SetCurrentPageTwice(p: Pagination, page: int)
    modifies p
    ensures p.currentPage == page && p.limit == old(p.limit)
  {
    p.SetCurrentPage(page);
    var once := p.currentPage;
    p.SetCurrentPage(page);
    assert p.currentPage == once;
  }
}
