/**
 * `HomeViewModel`: the paged post list behind the home screen. It keeps a
 * cursor (`currentPage`), an end marker (`isLastPage`) and the posts loaded
 * so far; `loadFirstPage`/`refresh` start again from page 1 and
 * `loadNextPage` appends the next page. Each load is one atomic step here.
 */
module ViewModel {
  import opened Optional
  import opened Posts
  import opened Repository

  /** Error text when a first-page request throws without a message. */
  const FIRST_PAGE_FALLBACK: string := "Failed to load posts"

  /** Error text when a next-page request throws without a message. */
  const NEXT_PAGE_FALLBACK: string := "Failed to load more posts"

  /**
   * The view model's fields: the published `posts` (no value until the first
   * publish), `isLoading`, `error`, and the private cursor and list.
   */
  datatype ViewState = ViewState(
    posts: Option<seq<Post>>,
    isLoading: bool,
    error: Option<string>,
    currentPage: int,
    isLastPage: bool,
    postsList: seq<Post>)

  /** The fields' values as declared, before `init` runs. */
  const Declared: ViewState := ViewState(None, false, None, 1, false, [])

  /** The pages, joined in order. */
  function Concat(pages: seq<seq<Post>>): seq<Post>
  {
    if pages == [] then [] else Concat(pages[..|pages| - 1]) + pages[|pages| - 1]
  }

  /** True when the response carries at least one post. */
  predicate Delivers(response: Fetch)
  {
    response.Posts? && response.items != []
  }

  /** The non-empty pages appended since the last reset, after `response`. */
  function PagesAfter(pages: seq<seq<Post>>, response: Fetch): (r: seq<seq<Post>>)
    ensures Delivers(response) ==> r == pages + [response.items]
    ensures !Delivers(response) ==> r == pages
  {
    if Delivers(response) then pages + [response.items] else pages
  }

  /**
   * The cursor counts the pages: `currentPage - 1` non-empty pages have been
   * appended since the last reset, and the list is exactly those pages.
   */
  ghost predicate Invariant(s: ViewState, pages: seq<seq<Post>>)
  {
    && s.currentPage == |pages| + 1
    && s.postsList == Concat(pages)
    && forall i :: 0 <= i < |pages| ==> pages[i] != []
  }

  /** The start of `loadFirstPage`: loading, no error, empty list, back to page 1. */
  function ResetForFirstPage(s: ViewState): (r: ViewState)
    ensures r.isLoading && r.error == None
    ensures r.postsList == [] && r.currentPage == 1 && !r.isLastPage
    ensures r.posts == s.posts
  {
    s.(isLoading := true, error := None, postsList := [], currentPage := 1, isLastPage := false)
  }

  /** The start of `loadNextPage` once it passes its guard: loading, no error. */
  function BeginNextPage(s: ViewState): (r: ViewState)
    ensures r.isLoading && r.error == None
    ensures r == s.(isLoading := true, error := None)
  {
    s.(isLoading := true, error := None)
  }

  /**
   * The rest of a load, once the request for `currentPage` has answered
   * `response`: the shared `try`/`catch`/`finally` of both loads, with
   * `fallback` as the error text for an exception without a message.
   */
  function Settle(s: ViewState, response: Fetch, fallback: string): (r: ViewState)
    ensures !r.isLoading
    ensures response.Failure? ==>
      && r.error == Some(response.message.GetOr(fallback))
      && r.currentPage == s.currentPage && r.isLastPage == s.isLastPage
      && r.postsList == s.postsList && r.posts == s.posts
    ensures response == Posts([]) ==>
      && r.isLastPage && r.error == s.error
      && r.currentPage == s.currentPage && r.postsList == s.postsList && r.posts == s.posts
    ensures Delivers(response) ==>
      && r.postsList == s.postsList + response.items
      && r.posts == Some(r.postsList)
      && r.currentPage == s.currentPage + 1
      && r.isLastPage == s.isLastPage && r.error == s.error
  {
    match response
    case Failure(message) =>
      s.(error := Some(message.GetOr(fallback)), isLoading := false)
    case Posts(items) =>
      if items == [] then
        s.(isLastPage := true, isLoading := false)
      else
        var list := s.postsList + items;
        s.(postsList := list, posts := Some(list), currentPage := s.currentPage + 1, isLoading := false)
  }

  /**
   * `loadFirstPage` (and so `refresh`) against the endpoint `api`: page 1 is
   * requested; its posts become the whole list, an empty page sets the end
   * marker, and a throw leaves an error with the list empty.
   */
  function FirstPageStep(s: ViewState, api: Api): (r: ViewState)
    ensures !r.isLoading
    ensures r.postsList == (if Delivers(GetPostsPage(api, 1)) then GetPostsPage(api, 1).items else [])
    ensures r.currentPage == (if Delivers(GetPostsPage(api, 1)) then 2 else 1)
    ensures r.isLastPage <==> GetPostsPage(api, 1) == Posts([])
    ensures r.error == (if GetPostsPage(api, 1).Failure? then Some(GetPostsPage(api, 1).message.GetOr(FIRST_PAGE_FALLBACK)) else None)
    ensures r.posts == (if Delivers(GetPostsPage(api, 1)) then Some(r.postsList) else s.posts)
  {
    Settle(ResetForFirstPage(s), GetPostsPage(api, 1), FIRST_PAGE_FALLBACK)
  }

  /** The guard of `loadNextPage`: a load is running, or the last page was reached. */
  predicate NextPageBlocked(s: ViewState)
  {
    s.isLoading || s.isLastPage
  }

  /**
   * `loadNextPage` against the endpoint `api`: unless blocked, the page under
   * the cursor is requested; its posts are appended and the cursor moves on,
   * an empty page sets the end marker, and a throw leaves an error.
   */
  function NextPageStep(s: ViewState, api: Api): (r: ViewState)
    ensures NextPageBlocked(s) ==> r == s
    ensures !NextPageBlocked(s) ==> !r.isLoading
    ensures !NextPageBlocked(s) ==>
      var response := GetPostsPage(api, s.currentPage);
      && r.postsList == (if Delivers(response) then s.postsList + response.items else s.postsList)
      && r.currentPage == (if Delivers(response) then s.currentPage + 1 else s.currentPage)
      && r.isLastPage == (response == Posts([]))
      && r.error == (if response.Failure? then Some(response.message.GetOr(NEXT_PAGE_FALLBACK)) else None)
      && r.posts == (if Delivers(response) then Some(r.postsList) else s.posts)
  {
    if NextPageBlocked(s) then s
    else Settle(BeginNextPage(s), GetPostsPage(api, s.currentPage), NEXT_PAGE_FALLBACK)
  }

  /** The non-empty pages since the last reset, after `loadNextPage`. */
  function NextPages(s: ViewState, pages: seq<seq<Post>>, api: Api): seq<seq<Post>>
  {
    if NextPageBlocked(s) then pages else PagesAfter(pages, GetPostsPage(api, s.currentPage))
  }

  lemma ConcatAppend(pages: seq<seq<Post>>, page: seq<Post>)
    ensures Concat(pages + [page]) == Concat(pages) + page
  {
    assert (pages + [page])[..|pages|] == pages;
  }

  /** Settling a load keeps the cursor counting the appended pages. */
  lemma SettlePreservesInvariant(s: ViewState, pages: seq<seq<Post>>, response: Fetch, fallback: string)
    requires Invariant(s, pages)
    ensures Invariant(Settle(s, response, fallback), PagesAfter(pages, response))
  {
    if Delivers(response) {
      ConcatAppend(pages, response.items);
    }
  }

  /** `loadFirstPage` establishes the invariant from any state. */
  lemma FirstPageInvariant(s: ViewState, api: Api)
    ensures Invariant(FirstPageStep(s, api), PagesAfter([], GetPostsPage(api, 1)))
  {
    SettlePreservesInvariant(ResetForFirstPage(s), [], GetPostsPage(api, 1), FIRST_PAGE_FALLBACK);
  }

  /** `loadNextPage` preserves the invariant. */
  lemma NextPageInvariant(s: ViewState, pages: seq<seq<Post>>, api: Api)
    requires Invariant(s, pages)
    ensures Invariant(NextPageStep(s, api), NextPages(s, pages, api))
  {
    if !NextPageBlocked(s) {
      SettlePreservesInvariant(BeginNextPage(s), pages, GetPostsPage(api, s.currentPage), NEXT_PAGE_FALLBACK);
    }
  }

  /** `loadNextPage` does nothing while a load runs or once the last page was reached. */
  lemma NextPageGuard(s: ViewState, api: Api)
    ensures NextPageBlocked(s) ==> NextPageStep(s, api) == s
    ensures !NextPageBlocked(s) ==> !NextPageStep(s, api).isLoading
  {
  }

  /** `loadNextPage` requests the page the cursor names, and appends it when it has posts. */
  lemma NextPageAppends(s: ViewState, api: Api)
    requires !NextPageBlocked(s) && Delivers(GetPostsPage(api, s.currentPage))
    ensures NextPageStep(s, api).postsList == s.postsList + GetPostsPage(api, s.currentPage).items
    ensures NextPageStep(s, api).posts == Some(NextPageStep(s, api).postsList)
    ensures NextPageStep(s, api).currentPage == s.currentPage + 1
    ensures NextPageStep(s, api).error == None
  {
  }

  /**
   * A first page that fails or comes back empty leaves the list empty and the
   * cursor at 1, while the published `posts` keep whatever they showed before.
   */
  lemma FirstPageWithoutPosts(s: ViewState, api: Api)
    requires !Delivers(GetPostsPage(api, 1))
    ensures FirstPageStep(s, api).postsList == []
    ensures FirstPageStep(s, api).currentPage == 1
    ensures FirstPageStep(s, api).posts == s.posts
    ensures FirstPageStep(s, api).isLastPage <==> GetPostsPage(api, 1) == Posts([])
  {
  }

  /**
   * The appended pages are what the endpoint serves for pages 1, 2, ..., and
   * when the end marker is set the page under the cursor is empty.
   */
  ghost predicate AgreesWith(api: Api, s: ViewState, pages: seq<seq<Post>>)
  {
    && (forall i :: 0 <= i < |pages| ==> GetPostsPage(api, i + 1) == Posts(pages[i]))
    && (s.isLastPage ==> GetPostsPage(api, s.currentPage) == Posts([]))
  }

  lemma FirstPageAgrees(s: ViewState, api: Api)
    ensures AgreesWith(api, FirstPageStep(s, api), PagesAfter([], GetPostsPage(api, 1)))
  {
  }

  /** Against an endpoint that does not change, `loadNextPage` keeps the list in step with it. */
  lemma NextPageAgrees(s: ViewState, pages: seq<seq<Post>>, api: Api)
    requires Invariant(s, pages) && AgreesWith(api, s, pages)
    ensures AgreesWith(api, NextPageStep(s, api), NextPages(s, pages, api))
  {
  }

  /**
   * Once the end marker is set, against an endpoint that did not change, the
   * list holds exactly the pages `getPostsStream` emits, in order: the
   * cursor is the stream's first stopping page.
   */
  lemma {:induction false} LastPageMatchesStream(s: ViewState, pages: seq<seq<Post>>, api: Api)
    requires Invariant(s, pages) && AgreesWith(api, s, pages) && s.isLastPage
    ensures IsFirstStop(api, s.currentPage)
    ensures pages == PagesBefore(api, s.currentPage)
    ensures s.postsList == Concat(PagesBefore(api, s.currentPage))
  {
    forall j | 1 <= j < s.currentPage
      ensures !Stops(GetPostsPage(api, j))
    {
      assert GetPostsPage(api, j) == Posts(pages[j - 1]);
    }
  }

  class HomeViewModel {
    var posts: Option<seq<Post>>
    var isLoading: bool
    var error: Option<string>
    var currentPage: int
    var isLastPage: bool
    var postsList: seq<Post>
    /** The non-empty pages appended since the last reset. */
    ghost var Pages: seq<seq<Post>>

    ghost function State(): ViewState
      reads this
    {
      ViewState(posts, isLoading, error, currentPage, isLastPage, postsList)
    }

    ghost predicate Valid()
      reads this
    {
      Invariant(State(), Pages)
    }

    /** Construction runs `init`, which loads the first page. */
    constructor (api: Api)
      ensures Valid()
      ensures State() == FirstPageStep(Declared, api)
      ensures Pages == PagesAfter([], GetPostsPage(api, 1))
    {
      posts, isLoading, error := None, false, None;
      currentPage, isLastPage, postsList := 1, false, [];
      Pages := [];
      new;
      LoadFirstPage(api);
    }

    method LoadFirstPage(api: Api)
      modifies this
      ensures Valid()
      ensures State() == FirstPageStep(old(State()), api)
      ensures Pages == PagesAfter([], GetPostsPage(api, 1))
    {
      isLoading := true;
      error := None;
      postsList := [];
      currentPage := 1;
      isLastPage := false;
      Pages := [];
      FetchCurrentPage(api, FIRST_PAGE_FALLBACK);
    }

    method LoadNextPage(api: Api)
      requires Valid()
      modifies this
      ensures Valid()
      ensures State() == NextPageStep(old(State()), api)
      ensures Pages == NextPages(old(State()), old(Pages), api)
    {
      if isLoading || isLastPage {
        return;
      }
      isLoading := true;
      error := None;
      FetchCurrentPage(api, NEXT_PAGE_FALLBACK);
    }

    method Refresh(api: Api)
      modifies this
      ensures Valid()
      ensures State() == FirstPageStep(old(State()), api)
      ensures Pages == PagesAfter([], GetPostsPage(api, 1))
    {
      LoadFirstPage(api);
    }

    /** Requests the page under the cursor and settles the load with the response. */
    method FetchCurrentPage(api: Api, fallback: string)
      requires Valid()
      modifies this
      ensures Valid()
      ensures State() == Settle(old(State()), GetPostsPage(api, old(currentPage)), fallback)
      ensures Pages == PagesAfter(old(Pages), GetPostsPage(api, old(currentPage)))
    {
      var newPosts := GetPostsPage(api, currentPage);
      ghost var before := State();
      SettlePreservesInvariant(before, Pages, newPosts, fallback);
      match newPosts {
        case Failure(message) =>
          error := Some(message.GetOr(fallback));
          isLoading := false;
          assert State() == Settle(before, newPosts, fallback);
        case Posts(items) =>
          if items == [] {
            isLastPage := true;
            isLoading := false;
            assert State() == Settle(before, newPosts, fallback);
          } else {
            postsList := postsList + items;
            posts := Some(postsList);
            currentPage := currentPage + 1;
            Pages := Pages + [items];
            isLoading := false;
            assert State() == Settle(before, newPosts, fallback);
          }
      }
    }
  }
}
