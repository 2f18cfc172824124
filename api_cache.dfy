/**
 * An explicit model of the query cache the endpoint table configures: every
 * cached read is keyed by endpoint and argument and holds its last result,
 * the tags it provided and a stale flag. A settled mutation marks stale every
 * entry that provided a tag one of its invalidated tags matches; a stale entry
 * is refetched by its next subscriber.
 */
module ApiCache {
  import opened JsValues
  import opened Domain
  import opened BlogApi

  /** The key of a cached read: the query endpoint and its argument. */
  datatype CacheKey = ListKey(args: ListArgs) | ArticleKey(slug: string) | CurrentUserKey

  /** The (transformed) data a read produced. */
  datatype CachedData =
    | ListData(page: ArticlesPage)
    | ArticleData(article: Option<Article>)
    | UserData(user: Option<User>)

  /**
   * A cache entry: the data of the last successful read (None before any),
   * the tags the last settled read provided, whether it is stale, and whether
   * the last settled read failed.
   */
  datatype Entry = Entry(data: Option<CachedData>, tags: seq<Tag>, stale: bool, failed: bool)

  /** The result the last settled read handed to providesTags: none when it failed. */
  function LastResult(e: Entry): Option<CachedData> {
    if e.failed then None else e.data
  }

  type Cache = map<CacheKey, Entry>

  /** The tags a read provides, from the endpoint table. */
  function ProvidedTags(key: CacheKey, data: Option<CachedData>): seq<Tag> {
    match key
    case ListKey(_) =>
      ListProvidedTags(if data.Some? && data.value.ListData? then Some(data.value.page) else None)
    case ArticleKey(slug) => ArticleProvidedTags(slug, data.None?)
    case CurrentUserKey => CurrentUserProvidedTags
  }

  /** Every entry carries the tags its endpoint provides for its last settled result. */
  ghost predicate WellFormed(c: Cache) {
    forall k :: k in c ==> c[k].tags == ProvidedTags(k, LastResult(c[k]))
  }

  /**
   * A settled read (`result` None when it failed) stores a fresh entry with the
   * tags its endpoint provides for that result. A success replaces the data; a
   * failure keeps the data an earlier success stored.
   */
  function Record(c: Cache, key: CacheKey, result: Option<CachedData>): (r: Cache)
    ensures WellFormed(c) ==> WellFormed(r)
    ensures r.Keys == c.Keys + {key}
    ensures result.Some? ==> r[key].data == result
    ensures result.None? ==> r[key].data == (if key in c then c[key].data else None)
    ensures r[key].tags == ProvidedTags(key, result) && !r[key].stale && (r[key].failed <==> result.None?)
    ensures forall k :: k in c && k != key ==> r[k] == c[k]
  {
    var data := if result.Some? then result else if key in c then c[key].data else None;
    c[key := Entry(data, ProvidedTags(key, result), false, result.None?)]
  }

  /** A settled list read: the raw response goes through transformResponse before it is stored. */
  function RecordList(c: Cache, args: ListArgs, response: Option<ArticlesResponse>): Cache {
    Record(c, ListKey(args), if response.Some? then Some(ListData(TransformArticles(response.value, args))) else None)
  }

  /**
   * The stored list page holds the response's articles and count, and the page
   * argument as passed: without one it stays undefined although the request
   * asked for page 1. The entry provides one Article tag per returned slug,
   * in order, then the list tag. A failed read keeps the page an earlier
   * read stored but provides the list tag alone.
   */
  lemma ListReadEntry(c: Cache, args: ListArgs, response: Option<ArticlesResponse>)
    ensures var r := RecordList(c, args, response);
      && ListKey(args) in r && !r[ListKey(args)].stale
      && (response.None? ==>
            && r[ListKey(args)].data == (if ListKey(args) in c then c[ListKey(args)].data else None)
            && r[ListKey(args)].tags == [ListTag] && r[ListKey(args)].failed)
      && (response.Some? ==>
            var arts := response.value.articles;
            && r[ListKey(args)].data == Some(ListData(ArticlesPage(arts, response.value.articlesCount, args.page)))
            && |r[ListKey(args)].tags| == |arts| + 1
            && r[ListKey(args)].tags[|arts|] == ListTag
            && (forall i :: 0 <= i < |arts| ==> r[ListKey(args)].tags[i] == ArticleTag(arts[i].slug)))
    ensures args.page.None? && response.Some? ==>
      RecordList(c, args, response)[ListKey(args)].data.value.page.currentPage.None?
      && ListWindow(args).0 == 0
  {
    if response.Some? {
      ListProvidedTagsShape(Some(TransformArticles(response.value, args)));
    }
  }

  /** A settled current-user read: the reply's `user` is stored. */
  function RecordCurrentUser(c: Cache, response: Option<UserResponse>): Cache {
    Record(c, CurrentUserKey, if response.Some? then Some(UserData(UnwrapUser(response.value))) else None)
  }

  /**
   * The current-user entry holds the reply's user, or after a failure the user
   * an earlier read stored, and provides the CurrentUser tag either way.
   */
  lemma CurrentUserReadEntry(c: Cache, response: Option<UserResponse>)
    ensures var r := RecordCurrentUser(c, response);
      && CurrentUserKey in r && !r[CurrentUserKey].stale
      && r[CurrentUserKey].tags == [CurrentUserTag]
      && (response.Some? ==> r[CurrentUserKey].data == Some(UserData(response.value.user)))
      && (response.None? ==> r[CurrentUserKey].data == (if CurrentUserKey in c then c[CurrentUserKey].data else None))
  {
  }

  /** Some invalidated tag matches some tag the entry provided. */
  predicate Hit(entry: Entry, invalidated: seq<Tag>) {
    exists t, p :: t in invalidated && p in entry.tags && Matches(t, p)
  }

  /** Marks stale every entry an invalidated tag hits; nothing else changes. */
  function Invalidate(c: Cache, invalidated: seq<Tag>): (r: Cache)
    ensures r.Keys == c.Keys
    ensures forall k :: k in c ==> r[k].data == c[k].data && r[k].tags == c[k].tags && r[k].failed == c[k].failed
    ensures forall k :: k in c ==> (r[k].stale <==> c[k].stale || Hit(c[k], invalidated))
  {
    map k | k in c :: if Hit(c[k], invalidated) then c[k].(stale := true) else c[k]
  }

  /** The cache after a mutation settles. */
  function AfterMutation(c: Cache, e: Endpoint): Cache {
    Invalidate(c, InvalidatesTags(e))
  }

  /** Invalidating the same tags twice is the same as once, and keeps the cache well formed. */
  lemma InvalidateIdempotent(c: Cache, invalidated: seq<Tag>)
    ensures Invalidate(Invalidate(c, invalidated), invalidated) == Invalidate(c, invalidated)
    ensures WellFormed(c) ==> WellFormed(Invalidate(c, invalidated))
  {
    var once := Invalidate(c, invalidated);
    var twice := Invalidate(once, invalidated);
    assert twice.Keys == once.Keys;
    forall k | k in once ensures twice[k] == once[k] {
      assert Hit(once[k], invalidated) <==> Hit(c[k], invalidated);
    }
  }

  /** A single tag with an id hits an entry exactly when the entry provided that very tag. */
  lemma HitById(entry: Entry, t: Tag)
    requires t.id.Some?
    ensures Hit(entry, [t]) <==> t in entry.tags
  {
    if t in entry.tags {
      assert Matches(t, t);
    }
  }

  /** Every entry of the list query provides the list tag, whatever its data. */
  lemma ListEntryHasListTag(c: Cache, k: CacheKey)
    requires WellFormed(c) && k in c && k.ListKey?
    ensures ListTag in c[k].tags
  {
    var tags := c[k].tags;
    assert tags[|tags| - 1] == ListTag;
  }

  /** An article entry provides exactly its own slug's tag. */
  lemma ArticleEntryTags(c: Cache, k: CacheKey)
    requires WellFormed(c) && k in c && k.ArticleKey?
    ensures c[k].tags == [ArticleTag(k.slug)]
  {
  }

  /**
   * Updating an article makes its own entry and every list page stale, and
   * leaves the entries of other articles and of the current user as they were.
   */
  lemma UpdateArticleRefreshes(c: Cache, slug: string, f: ArticleFields)
    requires WellFormed(c)
    ensures var r := AfterMutation(c, UpdateArticle(slug, f));
      && (ArticleKey(slug) in c ==> r[ArticleKey(slug)].stale)
      && (forall k :: k in c && k.ListKey? ==> r[k].stale)
      && (forall k :: k in c && k.ArticleKey? && k.slug != slug ==> r[k] == c[k])
      && (CurrentUserKey in c ==> r[CurrentUserKey] == c[CurrentUserKey])
  {
    var inv := InvalidatesTags(UpdateArticle(slug, f));
    var r := AfterMutation(c, UpdateArticle(slug, f));
    if ArticleKey(slug) in c {
      ArticleEntryTags(c, ArticleKey(slug));
      assert Matches(inv[0], ArticleTag(slug));
      assert Hit(c[ArticleKey(slug)], inv);
    }
    forall k | k in c && k.ListKey? ensures r[k].stale {
      ListEntryHasListTag(c, k);
      assert Matches(inv[1], ListTag);
      assert Hit(c[k], inv);
    }
    forall k | k in c && k.ArticleKey? && k.slug != slug ensures r[k] == c[k] {
      ArticleEntryTags(c, k);
      assert !Hit(c[k], inv);
    }
  }

  /**
   * Deleting an article invalidates the whole Articles type: every list page
   * goes stale, while every article entry, the deleted one's included, is kept.
   */
  lemma DeleteArticleRefreshesListsOnly(c: Cache, slug: string)
    requires WellFormed(c)
    ensures var r := AfterMutation(c, DeleteArticle(slug));
      && (forall k :: k in c && k.ListKey? ==> r[k].stale)
      && (forall k :: k in c && !k.ListKey? ==> r[k] == c[k])
  {
    var inv := InvalidatesTags(DeleteArticle(slug));
    var r := AfterMutation(c, DeleteArticle(slug));
    forall k | k in c && k.ListKey? ensures r[k].stale {
      ListEntryHasListTag(c, k);
      assert Matches(inv[0], ListTag);
      assert Hit(c[k], inv);
    }
  }

  /** Creating an article makes every list page stale and no other entry. */
  lemma CreateArticleRefreshesListsOnly(c: Cache, b: Body)
    requires WellFormed(c)
    ensures var r := AfterMutation(c, CreateArticle(b));
      && (forall k :: k in c && k.ListKey? ==> r[k].stale)
      && (forall k :: k in c && !k.ListKey? ==> r[k] == c[k])
  {
    var inv := InvalidatesTags(CreateArticle(b));
    var r := AfterMutation(c, CreateArticle(b));
    forall k | k in c && k.ListKey? ensures r[k].stale {
      ListEntryHasListTag(c, k);
      assert Matches(inv[0], ListTag);
      assert Hit(c[k], inv);
    }
  }

  /**
   * Favoriting (or unfavoriting) an article makes its own entry stale, and a
   * list page stale exactly when it was already or its last settled read
   * showed that article. A page whose refetch failed provides only the list
   * tag, so it is not refreshed even though it still holds its old articles.
   */
  lemma FavoriteRefreshesArticleAndPagesShowingIt(c: Cache, slug: string, k: CacheKey)
    requires WellFormed(c) && k in c
    ensures var r := AfterMutation(c, FavoriteArticle(slug));
      && (k == ArticleKey(slug) ==> r[k].stale)
      && (k.ArticleKey? && k.slug != slug ==> r[k] == c[k])
      && (k.CurrentUserKey? ==> r[k] == c[k])
      && (k.ListKey? && LastResult(c[k]).Some? && LastResult(c[k]).value.ListData? ==>
            var page := LastResult(c[k]).value.page;
            (r[k].stale <==> c[k].stale || exists i :: 0 <= i < |page.articles| && page.articles[i].slug == slug))
      && (k.ListKey? && !(LastResult(c[k]).Some? && LastResult(c[k]).value.ListData?) ==> r[k] == c[k])
  {
    var inv := InvalidatesTags(FavoriteArticle(slug));
    assert inv == [ArticleTag(slug)];
    if k.ListKey? {
      if LastResult(c[k]).Some? && LastResult(c[k]).value.ListData? {
        var page := LastResult(c[k]).value.page;
        ListProvidesSlug(page, slug);
        HitById(c[k], ArticleTag(slug));
      } else {
        assert c[k].tags == [ListTag];
        assert !Hit(c[k], inv);
      }
    } else if k.ArticleKey? {
      ArticleEntryTags(c, k);
      if k.slug == slug {
        assert Matches(inv[0], ArticleTag(slug));
        assert Hit(c[k], inv);
      } else {
        assert !Hit(c[k], inv);
      }
    }
  }

  /** The user mutations make the current-user entry stale and touch nothing else. */
  lemma UserMutationsRefreshCurrentUserOnly(c: Cache, e: Endpoint)
    requires WellFormed(c)
    requires e.SignUp? || e.SignIn? || e.UpdateCurrentUser?
    ensures var r := AfterMutation(c, e);
      && (CurrentUserKey in c ==> r[CurrentUserKey].stale)
      && (forall k :: k in c && k != CurrentUserKey ==> r[k] == c[k])
  {
    var inv := InvalidatesTags(e);
    var r := AfterMutation(c, e);
    assert inv == [CurrentUserTag];
    if CurrentUserKey in c {
      assert Matches(inv[0], c[CurrentUserKey].tags[0]);
      assert Hit(c[CurrentUserKey], inv);
    }
    forall k | k in c && k != CurrentUserKey ensures r[k] == c[k] {
      if k.ListKey? {
        var tags := c[k].tags;
        forall p | p in tags ensures p.kind != "CurrentUser" { }
      } else {
        ArticleEntryTags(c, k);
      }
      assert !Hit(c[k], inv);
    }
  }
}
