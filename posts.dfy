/** The records the post list works on. */
module Posts {
  import opened Optional

  /** A WordPress post as the REST endpoint returns it (`WordPressPost`). */
  datatype Post = Post(
    id: int,
    title: string,
    content: string,
    excerpt: string,
    date: string,
    featuredMediaUrl: Option<string>)

  /**
   * The outcome of one request for a page of posts: the page, or the
   * exception it threw, with its message when it has one.
   */
  datatype Fetch = Posts(items: seq<Post>) | Failure(message: Option<string>)
}
