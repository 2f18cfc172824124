/**
 * The records the client exchanges with the RealWorld-style REST API.
 * A field that the API may leave out, or send as null, is an Option.
 */
module Domain {
  import opened JsValues

  /** The signed-in identity; `token` is present in sign-in, sign-up and current-user replies. */
  datatype User = User(username: string, email: string, image: Option<string>, token: Option<string>)

  /** The author block embedded in an article. */
  datatype Author = Author(username: string, image: Option<string>)

  /** An article as the API returns it; `tagList` may be missing. */
  datatype Article = Article(
    slug: string,
    title: string,
    description: string,
    body: string,
    tagList: Option<seq<string>>,
    createdAt: string,
    favorited: bool,
    favoritesCount: int,
    author: Author)

  /** A server error value: an array of messages, or a single message. */
  datatype ErrorValue = Messages(items: seq<string>) | Message(text: string)

  /** The entries of a server `errors` object, in Object.entries order. */
  type ServerErrors = seq<(string, ErrorValue)>

  /**
   * A rejected request as the component's catch block sees it: the HTTP
   * status if there is one, `data.errors` if the server sent it, and
   * `message` when the rejection is a thrown Error.
   */
  datatype Failure = Failure(status: Option<int>, errors: Option<ServerErrors>, message: Option<string>)

  /** The settled result of an awaited, unwrapped request. */
  datatype Outcome<+T> = Ok(value: T) | Err(failure: Failure)
}
