/**
 * The article editor: it loads the article named by the route, fills the form
 * and the tag list from it, and submits the edited fields; a failure shows the
 * server's errors or a fixed message.
 */
module EditArticle {
  import opened JsValues
  import opened Domain
  import opened BlogApi
  import opened Schema
  import opened ArticleForm
  import CreateArticle

  /** The schema's errors: title 3 to 100 characters, description 10 to 200, body at least 20, all required. */
  function Issues(v: ArticleValues): map<string, Issue> {
    var withTitle := Put(map[], "title", StringIssue(Some(v.title), true, Some(3), Some(100)));
    var withDesc := Put(withTitle, "shortDesc", StringIssue(Some(v.shortDesc), true, Some(10), Some(200)));
    Put(withDesc, "body", StringIssue(Some(v.body), true, Some(20), None))
  }

  lemma SchemaBounds(v: ArticleValues)
    ensures "title" in Issues(v) <==> !(3 <= |v.title| <= 100)
    ensures "shortDesc" in Issues(v) <==> !(10 <= |v.shortDesc| <= 200)
    ensures "body" in Issues(v) <==> |v.body| < 20
    ensures Issues(v) == map[] <==> 3 <= |v.title| <= 100 && 10 <= |v.shortDesc| <= 200 && |v.body| >= 20
  {
  }

  /** The edit schema is stricter than the create schema: an article that can be saved here could have been created. */
  lemma StricterThanCreate(v: ArticleValues)
    ensures Issues(v) == map[] ==> CreateArticle.Issues(v) == map[]
    ensures CreateArticle.Issues(ArticleValues("abc", "short", "0123456789")) == map[]
    ensures Issues(ArticleValues("abc", "short", "0123456789")) != map[]
  {
    SchemaBounds(v);
    CreateArticle.SchemaBounds(v);
    CreateArticle.SchemaBounds(ArticleValues("abc", "short", "0123456789"));
    SchemaBounds(ArticleValues("abc", "short", "0123456789"));
  }

  /**
   * The load effect: when the query has an article, the form is reset to its
   * title, description and body and the tag list becomes its tagList, or the
   * empty list when that is missing. Otherwise nothing happens.
   */
  method LoadArticle(state: FormState, loaded: Option<Article>) returns (reset: Option<ArticleValues>)
    modifies state
    ensures loaded.Some? ==>
      && reset == Some(ArticleValues(loaded.value.title, loaded.value.description, loaded.value.body))
      && state.tags == loaded.value.tagList.GetOr([])
    ensures loaded.None? ==> reset.None? && state.tags == old(state.tags)
    ensures state.currentTag == old(state.currentTag) && state.serverError == old(state.serverError)
  {
    reset := None;
    if loaded.Some? {
      var article := loaded.value;
      reset := Some(ArticleValues(article.title, article.description, article.body));
      state.tags := article.tagList.GetOr([]);
    }
  }

  const UpdateFailedText := "Couldn't update the article"

  /** The server error a failed update shows: the response's `errors` object when present, otherwise the fixed text. */
  function UpdateFailure(f: Failure): (r: ServerError)
    ensures r.ErrorsObject? <==> f.errors.Some?
    ensures r.ErrorsObject? ==> r.errors == f.errors.value
    ensures r.ErrorText? ==> r.text == UpdateFailedText
  {
    if f.errors.Some? then ErrorsObject(f.errors.value) else ErrorText(UpdateFailedText)
  }

  /**
   * handleSubmit(onSubmit): with no schema error the server error is cleared
   * and the fields are sent with the tags to the route's slug; success opens
   * the article, failure records its server error.
   */
  method HandleSubmit(state: FormState, slug: string, v: ArticleValues, outcome: Outcome<()>)
    returns (request: Option<Request>, fieldErrors: map<string, Issue>, navigate: seq<string>)
    modifies state
    ensures fieldErrors == Issues(v)
    ensures Issues(v) != map[] ==> request.None? && navigate == [] && state.serverError == old(state.serverError)
    ensures Issues(v) == map[] ==>
      && request == Some(Query(UpdateArticle(slug, Payload(v, old(state.tags)))))
      && navigate == (if outcome.Ok? then ["/articles/" + slug] else [])
      && state.serverError == (if outcome.Ok? then None else Some(UpdateFailure(outcome.failure)))
    ensures state.tags == old(state.tags) && state.currentTag == old(state.currentTag)
  {
    fieldErrors := Issues(v);
    if fieldErrors != map[] {
      request := None;
      navigate := [];
      return;
    }
    state.serverError := None;
    request := Some(Query(UpdateArticle(slug, Payload(v, state.tags))));
    navigate := [];
    match outcome {
      case Ok(_) => navigate := ["/articles/" + slug];
      case Err(f) => state.serverError := Some(UpdateFailure(f));
    }
  }

  /**
   * Loading an article and submitting the form unedited sends the article's
   * own fields and tags back to its slug, whenever the edit schema accepts them.
   */
  method UneditedSubmitSendsArticle(state: FormState, slug: string, a: Article, outcome: Outcome<()>)
    returns (request: Option<Request>)
    requires Issues(ArticleValues(a.title, a.description, a.body)) == map[]
    modifies state
    ensures request == Some(Query(UpdateArticle(slug, ArticleFields(a.title, a.description, a.body, a.tagList.GetOr([])))))
  {
    var reset := LoadArticle(state, Some(a));
    var fieldErrors, navigate;
    request, fieldErrors, navigate := HandleSubmit(state, slug, reset.value, outcome);
  }

  datatype EditView = Fetching | NotFound | EditForm

  /** The page shows the loading text while fetching, then "not found" without an article, then the form. */
  function View(isFetching: bool, loaded: Option<Article>): (r: EditView)
    ensures r == Fetching <==> isFetching
    ensures r == NotFound <==> !isFetching && loaded.None?
    ensures r == EditForm <==> !isFetching && loaded.Some?
  {
    if isFetching then Fetching else if loaded.None? then NotFound else EditForm
  }
}
