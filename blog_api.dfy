/**
 * The endpoint table of the data-fetching layer: for every endpoint the
 * request it issues, how its response is reshaped, which cache tags a query
 * provides and which tags a mutation invalidates, and the rule that attaches
 * the bearer token to every request.
 */
module BlogApi {
  import opened JsValues
  import opened Domain

  /** A cache tag: a type and, optionally, an id. A bare string tag has no id. */
  datatype Tag = Tag(kind: string, id: Option<string>)

  /** The tag types the API declares, as written. */
  const TagTypes: seq<string> := ["Article", "Articles"]

  const ListTag := Tag("Articles", Some("LIST"))
  const CurrentUserTag := Tag("CurrentUser", None)

  function ArticleTag(slug: string): Tag {
    Tag("Article", Some(slug))
  }

  /**
   * The data-fetching library's matching rule, stated here as an assumed
   * definition: an invalidated tag without an id matches every provided
   * tag of its type; one with an id matches only that id.
   */
  predicate Matches(invalidated: Tag, provided: Tag) {
    invalidated.kind == provided.kind && (invalidated.id.None? || invalidated.id == provided.id)
  }

  datatype HttpMethod = GET | POST | PUT | DELETE

  /** The fields of a `{user: {...}}` body; None means the key is absent. */
  datatype UserFields = UserFields(
    username: Option<string>,
    email: Option<string>,
    password: Option<string>,
    image: Option<string>,
    repeatPassword: Option<string>,
    agree: Option<bool>)

  /** The fields of an `{article: {...}}` body. */
  datatype ArticleFields = ArticleFields(title: string, description: string, body: string, tagList: seq<string>)

  datatype Body = NoBody | UserEnvelope(user: UserFields) | ArticleEnvelope(article: ArticleFields)

  /** A request relative to the fixed API origin. */
  datatype Request = Request(verb: HttpMethod, url: string, params: seq<(string, int)>, body: Body)

  /** The argument of the list query; None is an undefined property. */
  datatype ListArgs = ListArgs(page: Option<int>, limit: Option<int>)

  /** Every endpoint with the argument its hook is called with. */
  datatype Endpoint =
    | GetArticles(args: ListArgs)
    | GetArticleBySlug(slug: string)
    | FavoriteArticle(slug: string)
    | UnfavoriteArticle(slug: string)
    | SignUp(userData: Body)
    | SignIn(userData: Body)
    | GetCurrentUser
    | UpdateCurrentUser(userData: Body)
    | CreateArticle(articleData: Body)
    | UpdateArticle(slug: string, article: ArticleFields)
    | DeleteArticle(slug: string)

  const DefaultPage := 1
  const DefaultLimit := 5

  /** The request an endpoint issues. */
  function Query(e: Endpoint): Request {
    match e
    case GetArticles(args) =>
      var page := args.page.GetOr(DefaultPage);
      var limit := args.limit.GetOr(DefaultLimit);
      Request(GET, "/articles", [("offset", (page - 1) * limit), ("limit", limit)], NoBody)
    case GetArticleBySlug(slug) => Request(GET, "/articles/" + slug, [], NoBody)
    case FavoriteArticle(slug) => Request(POST, "articles/" + slug + "/favorite", [], NoBody)
    case UnfavoriteArticle(slug) => Request(DELETE, "articles/" + slug + "/favorite", [], NoBody)
    case SignUp(userData) => Request(POST, "/users", [], userData)
    case SignIn(userData) => Request(POST, "/users/login", [], userData)
    case GetCurrentUser => Request(GET, "/user", [], NoBody)
    case UpdateCurrentUser(userData) => Request(PUT, "/user", [], userData)
    case CreateArticle(articleData) => Request(POST, "/articles", [], articleData)
    case UpdateArticle(slug, article) => Request(PUT, "/articles/" + slug, [], ArticleEnvelope(article))
    case DeleteArticle(slug) => Request(DELETE, "/articles/" + slug, [], NoBody)
  }

  /** The offset and limit the list query sends. */
  function ListWindow(args: ListArgs): (int, int) {
    var r := Query(GetArticles(args));
    (r.params[0].1, r.params[1].1)
  }

  /** The list query sends offset (page - 1) * limit and the same limit, defaulting page 1 and limit 5. */
  lemma ListQueryWindow(args: ListArgs)
    ensures var page := if args.page.Some? then args.page.value else 1;
            var limit := if args.limit.Some? then args.limit.value else 5;
            ListWindow(args) == ((page - 1) * limit, limit)
    ensures args == ListArgs(None, None) ==> ListWindow(args) == (0, 5)
  {
  }

  /** Consecutive pages are adjacent windows, and every page from 1 on starts at or after offset 0. */
  lemma {:induction false} ListWindowsTile(p: int, limit: nat)
    requires p >= 1
    ensures ListWindow(ListArgs(Some(p + 1), Some(limit))).0
            == ListWindow(ListArgs(Some(p), Some(limit))).0 + limit
    ensures ListWindow(ListArgs(Some(p), Some(limit))).0 >= 0
  {
    assert p * limit == (p - 1) * limit + limit;
    MulNonNegative(p - 1, limit);
  }

  /** Two different pages of a positive limit request windows that do not overlap. */
  lemma {:induction false} ListWindowsDisjoint(p: int, q: int, limit: int)
    requires p < q && limit > 0
    ensures var a := ListWindow(ListArgs(Some(p), Some(limit))).0;
            var b := ListWindow(ListArgs(Some(q), Some(limit))).0;
            a + limit <= b
  {
    MulNonNegative(q - p - 1, limit);
    assert (q - 1) * limit == (p - 1) * limit + limit + (q - p - 1) * limit;
  }

  lemma MulNonNegative(a: int, b: int)
    requires a >= 0 && b >= 0
    ensures a * b >= 0
  {
  }

  /** The reshaped list response. */
  datatype ArticlesPage = ArticlesPage(articles: seq<Article>, total: int, currentPage: Option<int>)

  /** The list endpoint's raw response. */
  datatype ArticlesResponse = ArticlesResponse(articles: seq<Article>, articlesCount: int)

  /** transformResponse of the list query: the raw `page` argument is kept, not its default. */
  function TransformArticles(response: ArticlesResponse, arg: ListArgs): ArticlesPage {
    ArticlesPage(response.articles, response.articlesCount, arg.page)
  }

  /** providesTags of the list query: one Article tag per slug, in order, then the list tag. */
  function ListProvidedTags(result: Option<ArticlesPage>): seq<Tag> {
    if result.Some? then
      seq(|result.value.articles|, i requires 0 <= i < |result.value.articles| =>
            ArticleTag(result.value.articles[i].slug)) + [ListTag]
    else [ListTag]
  }

  /** The list query's tags: exactly one per returned article, in order, followed by Articles/LIST. */
  lemma ListProvidedTagsShape(result: Option<ArticlesPage>)
    ensures result.None? ==> ListProvidedTags(result) == [ListTag]
    ensures result.Some? ==>
      var arts := result.value.articles;
      var tags := ListProvidedTags(result);
      |tags| == |arts| + 1 && tags[|arts|] == ListTag
      && (forall i :: 0 <= i < |arts| ==> tags[i] == ArticleTag(arts[i].slug))
  {
  }

  /** The list query provides an Article tag for a slug exactly when the page holds an article with it. */
  lemma ListProvidesSlug(page: ArticlesPage, slug: string)
    ensures ArticleTag(slug) in ListProvidedTags(Some(page))
            <==> exists i :: 0 <= i < |page.articles| && page.articles[i].slug == slug
  {
    var tags := ListProvidedTags(Some(page));
    if ArticleTag(slug) in tags {
      var k :| 0 <= k < |tags| && tags[k] == ArticleTag(slug);
      assert k < |page.articles|;
      assert page.articles[k].slug == slug;
    }
    if exists i :: 0 <= i < |page.articles| && page.articles[i].slug == slug {
      var i :| 0 <= i < |page.articles| && page.articles[i].slug == slug;
      assert tags[i] == ArticleTag(slug);
    }
  }

  /** The single-article query provides its slug's tag, whatever the outcome. */
  function ArticleProvidedTags(slug: string, failed: bool): seq<Tag> {
    [ArticleTag(slug)]
  }

  const CurrentUserProvidedTags: seq<Tag> := [CurrentUserTag]

  /** invalidatesTags of every mutation; queries invalidate nothing. */
  function InvalidatesTags(e: Endpoint): seq<Tag> {
    match e
    case FavoriteArticle(slug) => [ArticleTag(slug)]
    case UnfavoriteArticle(slug) => [ArticleTag(slug)]
    case SignUp(_) => [CurrentUserTag]
    case SignIn(_) => [CurrentUserTag]
    case UpdateCurrentUser(_) => [CurrentUserTag]
    case CreateArticle(_) => [ListTag]
    case UpdateArticle(slug, _) => [ArticleTag(slug), ListTag]
    case DeleteArticle(_) => [Tag("Articles", None)]
    case _ => []
  }

  /** Favorite and unfavorite target one URL with POST and DELETE and invalidate only that article. */
  lemma FavoritePair(slug: string)
    ensures Query(FavoriteArticle(slug)).url == Query(UnfavoriteArticle(slug)).url
    ensures Query(FavoriteArticle(slug)).verb == POST && Query(UnfavoriteArticle(slug)).verb == DELETE
    ensures InvalidatesTags(FavoriteArticle(slug)) == InvalidatesTags(UnfavoriteArticle(slug)) == [ArticleTag(slug)]
  {
  }

  /**
   * Update invalidates the article and the list; create only the list; delete the
   * whole Articles type, which does not match the article's own tag.
   */
  lemma ArticleInvalidations(slug: string, other: string, b: Body, f: ArticleFields)
    ensures InvalidatesTags(UpdateArticle(slug, f)) == [ArticleTag(slug), ListTag]
    ensures InvalidatesTags(CreateArticle(b)) == [ListTag]
    ensures forall t :: t in InvalidatesTags(DeleteArticle(slug)) ==> Matches(t, ListTag) && !Matches(t, ArticleTag(other))
  {
  }

  /** The user mutations invalidate the tag the current-user query provides, a type the API does not declare. */
  lemma CurrentUserTagFlow(b: Body)
    ensures InvalidatesTags(SignUp(b)) == InvalidatesTags(SignIn(b)) == InvalidatesTags(UpdateCurrentUser(b))
            == CurrentUserProvidedTags
    ensures CurrentUserTag.kind !in TagTypes
  {
  }

  /** The transformResponse of the current-user query and mutation: the reply's `user`. */
  datatype UserResponse = UserResponse(user: Option<User>)

  function UnwrapUser(response: UserResponse): Option<User> {
    response.user
  }

  /** The request headers, updated in place by header preparation. */
  class Headers {
    var entries: map<string, string>

    constructor (initial: map<string, string>)
      ensures entries == initial
    {
      entries := initial;
    }
  }

  const AuthorizationHeader := "Authorization"

  /** prepareHeaders: sets `Authorization: Token <token>` exactly when the token is truthy. */
  method PrepareHeaders(headers: Headers, token: Option<string>)
    modifies headers
    ensures Truthy(token) ==> headers.entries == old(headers.entries)[AuthorizationHeader := "Token " + token.value]
    ensures !Truthy(token) ==> headers.entries == old(headers.entries)
  {
    if token.Some? && token.value != "" {
      headers.entries := headers.entries[AuthorizationHeader := "Token " + token.value];
    }
  }
}
