/**
 * An article card of the list: it keeps its own copy of the article and
 * flips the favourite mark and count after the matching request succeeds.
 */
module BlogArticle {
  import opened JsValues
  import opened Domain
  import opened BlogApi

  /** The article after a successful like click: the mark flipped, the count moved by one, everything else kept. */
  function Toggled(a: Article): (r: Article)
    ensures r.favorited == !a.favorited
    ensures r.favoritesCount == if a.favorited then a.favoritesCount - 1 else a.favoritesCount + 1
    ensures r.(favorited := a.favorited, favoritesCount := a.favoritesCount) == a
  {
    if a.favorited then a.(favorited := false, favoritesCount := a.favoritesCount - 1)
    else a.(favorited := true, favoritesCount := a.favoritesCount + 1)
  }

  /** Two successful clicks restore the article. */
  lemma ToggleTwice(a: Article)
    ensures Toggled(Toggled(a)) == a
  {
  }

  /** The request a click sends: none when logged out, else unfavorite a favourite and favorite the others. */
  function LikeRequest(isAuthenticated: bool, a: Article): (r: Option<Request>)
    ensures !isAuthenticated <==> r.None?
    ensures r.Some? ==> r.value.url == "articles/" + a.slug + "/favorite"
    ensures r.Some? ==> (r.value.verb == DELETE <==> a.favorited) && (r.value.verb == POST <==> !a.favorited)
  {
    if !isAuthenticated then None
    else if a.favorited then Some(Query(UnfavoriteArticle(a.slug)))
    else Some(Query(FavoriteArticle(a.slug)))
  }

  /** The card's local state. */
  class Card {
    var article: Article

    constructor (initialArticle: Article)
      ensures article == initialArticle
    {
      article := initialArticle;
    }

    /**
     * handleLikeClick: logged out, nothing is sent and nothing changes;
     * otherwise the request for the current mark is sent, and the article
     * is toggled only if it succeeds.
     */
    method HandleLikeClick(isAuthenticated: bool, outcome: Outcome<()>) returns (request: Option<Request>)
      modifies this
      ensures request == LikeRequest(isAuthenticated, old(article))
      ensures article == if isAuthenticated && outcome.Ok? then Toggled(old(article)) else old(article)
    {
      if !isAuthenticated {
        return None;
      }
      if article.favorited {
        request := Some(Query(UnfavoriteArticle(article.slug)));
        if outcome.Ok? {
          article := article.(favorited := false, favoritesCount := article.favoritesCount - 1);
        }
      } else {
        request := Some(Query(FavoriteArticle(article.slug)));
        if outcome.Ok? {
          article := article.(favorited := true, favoritesCount := article.favoritesCount + 1);
        }
      }
    }
  }

  /** Two successful clicks by a logged-in reader leave the card as it was and send opposite requests. */
  method ClickTwice(card: Card) returns (first: Option<Request>, second: Option<Request>)
    modifies card
    ensures card.article == old(card.article)
    ensures first.Some? && second.Some? && first.value.url == second.value.url && first.value.verb != second.value.verb
  {
    first := card.HandleLikeClick(true, Ok(()));
    second := card.HandleLikeClick(true, Ok(()));
    ToggleTwice(old(card.article));
  }

  /** The tag row: "No tags" for an empty list, a chip per tag otherwise; a missing list fails to render. */
  datatype TagsView = RenderFailure | NoTags | Chips(tags: seq<string>)

  function RenderTags(tagList: Option<seq<string>>): (r: TagsView)
    ensures r == NoTags <==> tagList == Some([])
    ensures r == RenderFailure <==> tagList.None?
    ensures r.Chips? ==> tagList == Some(r.tags) && r.tags != []
  {
    match tagList
    case None => RenderFailure
    case Some(tags) => if |tags| == 0 then NoTags else Chips(tags)
  }
}
