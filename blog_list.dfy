/**
 * The article list view: it queries the page named by the pagination state,
 * chooses between the loading, error and list views, renders one linked card
 * per article that has a slug, and dispatches a page change.
 */
module BlogList {
  import opened JsValues
  import opened Domain
  import opened BlogApi
  import opened ArticleSlice

  /** The list query's argument, taken from the pagination state. */
  function QueryArgs(currentPage: int, limit: int): ListArgs {
    ListArgs(Some(currentPage), Some(limit))
  }

  /** The list view asks for offset (currentPage - 1) * limit and the store's limit. */
  lemma QueryArgsWindow(currentPage: int, limit: int)
    ensures ListWindow(QueryArgs(currentPage, limit)) == ((currentPage - 1) * limit, limit)
  {
  }

  /** A rendered article card: its React key and link target. */
  datatype Card = Card(key: string, link: string, article: Article)

  function CardFor(a: Article): Card {
    Card(a.slug, "/articles/" + a.slug, a)
  }

  /** The cards of the articles with a truthy slug, in order; the others are skipped. */
  function VisibleCards(articles: seq<Article>): (r: seq<Card>)
    ensures |r| <= |articles|
    ensures forall c :: c in r ==> c.article in articles && c.article.slug != "" && c == CardFor(c.article)
    ensures forall a :: a in articles && a.slug != "" ==> CardFor(a) in r
  {
    if articles == [] then []
    else
      var rest := VisibleCards(articles[1..]);
      assert forall a :: a in articles ==> a == articles[0] || a in articles[1..];
      if articles[0].slug == "" then rest else [CardFor(articles[0])] + rest
  }

  /** Skipping slugless articles keeps the order: the cards of a concatenation are the concatenated cards. */
  lemma {:induction false} VisibleCardsConcat(a: seq<Article>, b: seq<Article>)
    ensures VisibleCards(a + b) == VisibleCards(a) + VisibleCards(b)
  {
    if a == [] {
      assert a + b == b;
    } else {
      assert (a + b)[1..] == a[1..] + b;
      VisibleCardsConcat(a[1..], b);
    }
  }

  datatype Grid = NoArticles | Cards(cards: seq<Card>)

  datatype PaginationProps = PaginationProps(current: int, total: Option<int>, pageSize: int, disabled: bool)

  datatype View = Loading | ErrorAlert | ListView(grid: Grid, pagination: PaginationProps)

  /** The view the list renders from the store values and the query state. */
  function Render(currentPage: int, limit: int, data: Option<ArticlesPage>, isLoading: bool, isError: bool): View {
    if isLoading then Loading
    else if isError then ErrorAlert
    else
      var grid := if data.Some? && |data.value.articles| > 0 then Cards(VisibleCards(data.value.articles)) else NoArticles;
      ListView(grid, PaginationProps(currentPage, if data.Some? then Some(data.value.total) else None, limit, isLoading))
  }

  /**
   * Loading wins over error, error over the list; the list shows "no articles"
   * for missing or empty data, and its pagination is the store's page and
   * limit with the response's total, never disabled.
   */
  lemma RenderPrecedence(currentPage: int, limit: int, data: Option<ArticlesPage>, isLoading: bool, isError: bool)
    ensures isLoading ==> Render(currentPage, limit, data, isLoading, isError) == Loading
    ensures !isLoading && isError ==> Render(currentPage, limit, data, isLoading, isError) == ErrorAlert
    ensures !isLoading && !isError ==>
      var v := Render(currentPage, limit, data, isLoading, isError);
      && v.ListView?
      && (v.grid == NoArticles <==> data.None? || data.value.articles == [])
      && v.pagination == PaginationProps(currentPage, if data.Some? then Some(data.value.total) else None, limit, false)
  {
  }

  /** A non-empty page whose articles all lack a slug renders an empty grid, not the "no articles" message. */
  lemma AllSluglessRendersBlank(currentPage: int, limit: int, page: ArticlesPage)
    requires page.articles != []
    requires forall i :: 0 <= i < |page.articles| ==> page.articles[i].slug == ""
    ensures Render(currentPage, limit, Some(page), false, false).grid == Cards([])
  {
    NoSlugNoCards(page.articles);
  }

  lemma {:induction false} NoSlugNoCards(articles: seq<Article>)
    requires forall i :: 0 <= i < |articles| ==> articles[i].slug == ""
    ensures VisibleCards(articles) == []
  {
    if articles != [] {
      NoSlugNoCards(articles[1..]);
    }
  }

  /** handlePageChange: dispatches setCurrentPage with the chosen page. */
  method HandlePageChange(state: Pagination, page: int)
    modifies state
    ensures state.currentPage == page && state.limit == old(state.limit)
  {
    state.SetCurrentPage(page);
  }
}
