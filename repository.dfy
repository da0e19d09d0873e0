/**
 * `WordPressRepository`: page requests against the WordPress REST endpoint
 * `wp-json/wp/v2/posts`, one page at a time or as a stream of every page.
 */
module Repository {
  import opened Posts

  /** Posts per page in every request. */
  const PAGE_SIZE: int := 10

  /**
   * The endpoint as it answers at one moment: the outcome of
   * `getPosts(page, perPage)`. HTTP and JSON decoding are behind it.
   */
  type Api = (int, int) -> Fetch

  /** One call of `getPosts`, with the query parameters it was given. */
  datatype Request = Request(page: int, perPage: int)

  /** What the endpoint answers to one request. */
  function Answer(api: Api, request: Request): Fetch
  {
    api(request.page, request.perPage)
  }

  /** `getPostsPage(page)`: one request for `page`, at the fixed page size. */
  function GetPostsPage(api: Api, page: int): (r: Fetch)
    ensures r == Answer(api, Request(page, PAGE_SIZE))
  {
    api(page, PAGE_SIZE)
  }

  /** A response that ends the stream: an empty page, or an exception. */
  predicate Stops(f: Fetch)
  {
    f.Failure? || f.items == []
  }

  /** Page `k` is the first page whose response ends the stream. */
  ghost predicate IsFirstStop(api: Api, k: int)
  {
    k >= 1 && Stops(GetPostsPage(api, k)) &&
    forall j :: 1 <= j < k ==> !Stops(GetPostsPage(api, j))
  }

  /** The items of pages 1 .. k-1, in page order, when none of them threw. */
  function PagesBefore(api: Api, k: int): (pages: seq<seq<Post>>)
    requires k >= 1
    requires forall j :: 1 <= j < k ==> GetPostsPage(api, j).Posts?
    ensures |pages| == k - 1
    ensures forall i :: 0 <= i < k - 1 ==> pages[i] == GetPostsPage(api, i + 1).items
  {
    seq(k - 1, i requires 0 <= i < k - 1 => GetPostsPage(api, i + 1).items)
  }

  /** Some page ends the stream; then there is a first such page, no later than it. */
  lemma {:induction false} FirstStopExists(api: Api, k: int)
    requires k >= 1 && Stops(GetPostsPage(api, k))
    ensures exists f :: 1 <= f <= k && IsFirstStop(api, f)
    decreases k
  {
    if IsFirstStop(api, k) {
    } else {
      var j :| 1 <= j < k && Stops(GetPostsPage(api, j));
      FirstStopExists(api, j);
    }
  }

  /**
   * `getPostsStream()`: requests pages 1, 2, 3, ... and emits each non-empty
   * page, until a page comes back empty (the flow completes) or a request
   * throws (the exception leaves the flow). `emitted` is what the flow
   * emits, `requests` every `getPosts` call in order, and `last` the
   * response that ended it.
   */
  method GetPostsStream(api: Api) returns (emitted: seq<seq<Post>>, requests: seq<Request>, last: Fetch)
    requires exists k :: k >= 1 && Stops(GetPostsPage(api, k))
    ensures IsFirstStop(api, |requests|)
    ensures forall i :: 0 <= i < |requests| ==> requests[i] == Request(i + 1, PAGE_SIZE)
    ensures emitted == PagesBefore(api, |requests|)
    ensures forall i :: 0 <= i < |emitted| ==> emitted[i] != []
    ensures last == GetPostsPage(api, |requests|) && Stops(last)
  {
    ghost var bound :| bound >= 1 && Stops(GetPostsPage(api, bound));
    var currentPage := 1;
    var hasMorePages := true;
    emitted, requests, last := [], [], Posts([]);
    while hasMorePages
      invariant 1 <= currentPage <= bound
      invariant forall j :: 1 <= j < currentPage ==> !Stops(GetPostsPage(api, j))
      invariant |requests| == if hasMorePages then currentPage - 1 else currentPage
      invariant forall i :: 0 <= i < |requests| ==> requests[i] == Request(i + 1, PAGE_SIZE)
      invariant |emitted| == currentPage - 1
      invariant forall i :: 0 <= i < |emitted| ==> emitted[i] == GetPostsPage(api, i + 1).items
      invariant !hasMorePages ==> last == GetPostsPage(api, currentPage) && Stops(last)
      decreases bound - currentPage, hasMorePages
    {
      var request := Request(currentPage, PAGE_SIZE);
      var posts := Answer(api, request);
      requests := requests + [request];
      if posts.Failure? {
        last := posts;
        break;
      }
      if posts.items != [] {
        emitted := emitted + [posts.items];
        currentPage := currentPage + 1;
      } else {
        hasMorePages := false;
        last := posts;
      }
    }
  }
}
