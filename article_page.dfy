/**
 * The article page: it shows the article named by the route, offers the
 * edit and delete controls to its author, and leaves the page on edit or on
 * a successful delete.
 */
module ArticlePage {
  import opened JsValues
  import opened Domain
  import opened BlogApi
  import BlogList
  import Routes

  /** Authenticated, both usernames truthy and equal. */
  predicate IsAuthor(isAuthenticated: bool, currentUser: Option<User>, article: Article) {
    isAuthenticated && currentUser.Some? && currentUser.value.username != ""
    && article.author.username != "" && currentUser.value.username == article.author.username
  }

  /** Only a logged-in reader with a non-empty username equal to the author's is the author. */
  lemma IsAuthorIff(isAuthenticated: bool, currentUser: Option<User>, article: Article)
    ensures IsAuthor(isAuthenticated, currentUser, article) <==>
      isAuthenticated && currentUser.Some? && currentUser.value.username == article.author.username
      && article.author.username != ""
    ensures currentUser.None? ==> !IsAuthor(isAuthenticated, currentUser, article)
  {
  }

  datatype PageView = Spinner | LoadError | NotFound | RenderFailure | Content(article: Article, authorControls: bool)

  /**
   * Loading first, then the error alert, then "not found" without an article.
   * An article without a tag list makes the tag chips' `map` throw, so the
   * page fails to render; otherwise the article is shown.
   */
  function Render(isLoading: bool, isError: bool, loaded: Option<Article>, isAuthenticated: bool, currentUser: Option<User>): (r: PageView)
    ensures isLoading ==> r == Spinner
    ensures !isLoading && isError ==> r == LoadError
    ensures !isLoading && !isError && loaded.None? ==> r == NotFound
    ensures !isLoading && !isError && loaded.Some? ==>
      (r == RenderFailure <==> loaded.value.tagList.None?)
    ensures !isLoading && !isError && loaded.Some? && loaded.value.tagList.Some? ==>
      r.Content? && r.article == loaded.value
    ensures r.Content? ==> (r.authorControls <==> IsAuthor(isAuthenticated, currentUser, r.article))
  {
    if isLoading then Spinner
    else if isError then LoadError
    else if loaded.None? then NotFound
    else if loaded.value.tagList.None? then RenderFailure
    else Content(loaded.value, IsAuthor(isAuthenticated, currentUser, loaded.value))
  }

  /** handleEdit: the editor route of the article. */
  function EditRoute(slug: string): string {
    "/articles/" + slug + "/edit"
  }

  /** The editor route extends the link of the article's card in the list; for a one-segment slug both are routed. */
  lemma EditRouteExtendsCardLink(a: Article)
    ensures EditRoute(a.slug) == BlogList.CardFor(a).link + "/edit"
    ensures Routes.IsSegment(a.slug) ==> Routes.Routed(BlogList.CardFor(a).link) && Routes.Routed(EditRoute(a.slug))
  {
    Routes.ArticleRoutes(a.slug);
    assert EditRoute(a.slug) == Routes.ArticlesPrefix + a.slug + "/edit";
  }

  /** handleDelete: the delete request for the route's slug, then the list on success and no navigation on failure. */
  function HandleDelete(slug: string, outcome: Outcome<()>): (r: (Request, seq<string>))
    ensures r.0 == Query(DeleteArticle(slug)) && r.0.verb == DELETE && r.0.url == "/articles/" + slug
    ensures r.1 == [] <==> outcome.Err?
    ensures outcome.Ok? ==> r.1 == ["/"]
  {
    (Query(DeleteArticle(slug)), if outcome.Ok? then ["/"] else [])
  }
}
