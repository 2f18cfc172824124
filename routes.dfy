/**
 * The route table of the application shell: the paths the router renders a
 * page for. A `:slug` parameter matches one non-empty path segment.
 */
module Routes {

  /** One path segment as a route parameter matches it: non-empty, without "/". */
  predicate IsSegment(s: string) {
    s != "" && '/' !in s
  }

  const ArticlesPrefix := "/articles/"

  /** `/articles/:slug` and `/articles/:slug/edit`. */
  predicate IsArticlePath(path: string) {
    && |path| > |ArticlesPrefix|
    && path[..|ArticlesPrefix|] == ArticlesPrefix
    && (|| IsSegment(path[|ArticlesPrefix|..])
        || (&& |path| > |ArticlesPrefix| + 5
            && path[|path| - 5..] == "/edit"
            && IsSegment(path[|ArticlesPrefix|..|path| - 5])))
  }

  /** The router renders a page for the path. */
  predicate Routed(path: string) {
    || path == "/" || path == "/articles" || path == "/sign-in" || path == "/sign-up"
    || path == "/profile" || path == "/new-article"
    || IsArticlePath(path)
  }

  /** An article's page and its editor are routed when its slug is one segment; an empty slug is not. */
  lemma ArticleRoutes(slug: string)
    ensures IsSegment(slug) ==> Routed(ArticlesPrefix + slug) && Routed(ArticlesPrefix + slug + "/edit")
    ensures !Routed(ArticlesPrefix + "")
  {
    if IsSegment(slug) {
      var page := ArticlesPrefix + slug;
      assert page[..|ArticlesPrefix|] == ArticlesPrefix;
      assert page[|ArticlesPrefix|..] == slug;
      var edit := ArticlesPrefix + slug + "/edit";
      assert edit[..|ArticlesPrefix|] == ArticlesPrefix;
      assert edit[|edit| - 5..] == "/edit";
      assert edit[|ArticlesPrefix|..|edit| - 5] == slug;
    }
    assert ArticlesPrefix + "" == ArticlesPrefix;
  }
}
