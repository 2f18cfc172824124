/**
 * The new-article form: its schema, the condition that enables its submit
 * button, and the submit handler that sends the article and returns to the
 * list on success.
 */
module CreateArticle {
  import opened JsValues
  import opened Domain
  import opened BlogApi
  import opened Schema
  import opened ArticleForm

  /** The schema's errors: title 3 to 100 characters, a description of at most 200, a body of at least 10, all required. */
  function Issues(v: ArticleValues): map<string, Issue> {
    var withTitle := Put(map[], "title", StringIssue(Some(v.title), true, Some(3), Some(100)));
    var withDesc := Put(withTitle, "shortDesc", StringIssue(Some(v.shortDesc), true, None, Some(200)));
    Put(withDesc, "body", StringIssue(Some(v.body), true, Some(10), None))
  }

  /** Each field is flagged exactly when it is out of its bounds; the form passes exactly when none is. */
  lemma SchemaBounds(v: ArticleValues)
    ensures "title" in Issues(v) <==> !(3 <= |v.title| <= 100)
    ensures "shortDesc" in Issues(v) <==> !(1 <= |v.shortDesc| <= 200)
    ensures "body" in Issues(v) <==> |v.body| < 10
    ensures Issues(v).Keys <= {"title", "shortDesc", "body"}
    ensures Issues(v) == map[] <==> 3 <= |v.title| <= 100 && 1 <= |v.shortDesc| <= 200 && |v.body| >= 10
  {
  }

  /** isFormValid and the loading flag: every watched field non-empty, no error recorded, no request in flight. */
  predicate SubmitEnabled(v: ArticleValues, errorFields: set<string>, isLoading: bool) {
    v.title != "" && v.shortDesc != "" && v.body != "" && errorFields == {} && !isLoading
  }

  /** Once every field has been validated, the button is enabled exactly when the schema passes and nothing is loading. */
  lemma EnabledOnceValidated(v: ArticleValues, isLoading: bool)
    ensures SubmitEnabled(v, Issues(v).Keys, isLoading) <==> Issues(v) == map[] && !isLoading
  {
    SchemaBounds(v);
  }

  /**
   * handleSubmit(onSubmit): the schema's errors are reported and, when there
   * are none, the server error is cleared, the article is sent with the
   * editor's tags and the list is opened if the request succeeds. A failure
   * is only logged, so the server error stays cleared.
   */
  method HandleSubmit(state: FormState, v: ArticleValues, outcome: Outcome<()>)
    returns (request: Option<Request>, fieldErrors: map<string, Issue>, navigate: seq<string>)
    modifies state
    ensures fieldErrors == Issues(v)
    ensures Issues(v) != map[] ==> request.None? && navigate == [] && state.serverError == old(state.serverError)
    ensures Issues(v) == map[] ==>
      && request == Some(Query(CreateArticle(ArticleEnvelope(Payload(v, old(state.tags))))))
      && state.serverError == None
      && navigate == (if outcome.Ok? then ["/"] else [])
    ensures state.tags == old(state.tags) && state.currentTag == old(state.currentTag)
  {
    fieldErrors := Issues(v);
    if fieldErrors != map[] {
      request := None;
      navigate := [];
      return;
    }
    state.serverError := None;
    request := Some(Query(CreateArticle(ArticleEnvelope(Payload(v, state.tags)))));
    navigate := [];
    if outcome.Ok? {
      navigate := ["/"];
    }
  }
}
