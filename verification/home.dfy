/** The index page's client-side "load more" state (index.tsx, `Home` and `handlePaginate`). */
module Home {
  import opened Nullable
  import opened Prismic
  import opened Projection
  import opened StaticProps

  /** The JSON body of a page fetched by "load more": `{results, next_page}`. */
  datatype PageResponse = PageResponse(results: seq<RawDocument>, nextPage: Option<string>)

  /** Every fetched page's results, in the order the pages arrived. */
  function Flatten(history: seq<PageResponse>): (docs: seq<RawDocument>)
    decreases |history|
  {
    if history == [] then [] else Flatten(history[..|history| - 1]) + history[|history| - 1].results
  }

  /** What the successive paginations appended to the list, one projected page after the other. */
  function Appended(history: seq<PageResponse>): (posts: seq<Post>)
    decreases |history|
  {
    if history == [] then [] else Appended(history[..|history| - 1]) + ProjectAll(history[|history| - 1].results)
  }

  /** The cursor after the given responses: the initial one until a page arrives, then the last page's. */
  function Cursor(initial: Option<string>, history: seq<PageResponse>): Option<string> {
    if history == [] then initial else history[|history| - 1].nextPage
  }

  /** The appended posts are the projection of all fetched results, in arrival order. */
  lemma {:induction false} AppendedIsProjectionOfPages(history: seq<PageResponse>)
    ensures Appended(history) == ProjectAll(Flatten(history))
    ensures |Appended(history)| == |Flatten(history)|
    decreases |history|
  {
    if history != [] {
      var front, last := history[..|history| - 1], history[|history| - 1];
      AppendedIsProjectionOfPages(front);
      ProjectAllConcat(Flatten(front), last.results);
    }
  }

  /** Appending is compositional: the pages of a longer session extend those of a shorter one. */
  lemma {:induction false} AppendedConcat(h1: seq<PageResponse>, h2: seq<PageResponse>)
    ensures Appended(h1 + h2) == Appended(h1) + Appended(h2)
    decreases |h2|
  {
    if h2 == [] {
      assert h1 + h2 == h1;
    } else {
      var front, last := h2[..|h2| - 1], h2[|h2| - 1];
      assert (h1 + h2)[..|h1 + h2| - 1] == h1 + front;
      assert (h1 + h2)[|h1 + h2| - 1] == last;
      AppendedConcat(h1, front);
    }
  }

  /** The component state of one rendered index page. */
  class HomeState {
    /** The props the page was generated with; the click handler's closure keeps them. */
    const postsPagination: PostPagination
    const preview: bool
    /** `useState(postsPagination.results)` */
    var posts: seq<Post>
    /** `useState(postsPagination.next_page)` */
    var nextPage: Option<string>
    /** The page responses applied so far, oldest first. */
    ghost var history: seq<PageResponse>

    /** The state is the generated props extended by the fetched pages, and a page can only
        have been fetched if the generated cursor was truthy. */
    ghost predicate Valid()
      reads this
    {
      && posts == postsPagination.results + Appended(history)
      && nextPage == Cursor(postsPagination.nextPage, history)
      && (history != [] ==> Truthy(postsPagination.nextPage))
    }

    /** The first render: the state starts from the generated props. */
    constructor (props: HomeProps)
      ensures Valid()
      ensures postsPagination == props.postsPagination && preview == props.preview
      ensures posts == props.postsPagination.results && nextPage == props.postsPagination.nextPage
      ensures history == []
    {
      postsPagination := props.postsPagination;
      preview := props.preview;
      posts := props.postsPagination.results;
      nextPage := props.postsPagination.nextPage;
      history := [];
    }

    /** `next_page && <button>`: the "load more" button is rendered exactly when the cursor is truthy. */
    predicate ShowsLoadMore()
      reads this
      ensures ShowsLoadMore() <==> Truthy(nextPage)
      ensures nextPage.None? ==> !ShowsLoadMore()
    {
      Truthy(nextPage)
    }

    /** The URL the click handler fetches: always the generated cursor, never the current one. */
    function RequestUrl(): (url: string)
      reads this
      requires Valid() && ShowsLoadMore()
      ensures url != "" && postsPagination.nextPage == Some(url)
    {
      postsPagination.nextPage.value
    }

    /** `handlePaginate`, clicked on the visible button and completed by `response`:
        returns the URL that was requested, appends the projected page to the list
        and replaces the cursor; the generated props do not change. */
    method Paginate(response: PageResponse) returns (url: string)
      requires Valid() && ShowsLoadMore()
      modifies this
      ensures Valid()
      ensures url == old(RequestUrl()) && postsPagination.nextPage == Some(url)
      ensures posts == old(posts) + ProjectAll(response.results)
      ensures nextPage == response.nextPage
      ensures history == old(history) + [response]
    {
      url := postsPagination.nextPage.value;
      var postsResults := ProjectAll(response.results);
      posts := posts + postsResults;
      nextPage := response.nextPage;
      history := history + [response];
      assert history[..|history| - 1] == old(history);
    }
  }

  /** Whatever pages were fetched, the list is the generated list followed by the
      projection of every fetched result in arrival order, the list of any earlier
      moment of the session is a prefix of it followed by the later pages, and the
      button follows the last page's cursor. */
  lemma SessionState(h: HomeState)
    requires h.Valid()
    ensures h.posts == h.postsPagination.results + ProjectAll(Flatten(h.history))
    ensures h.postsPagination.results <= h.posts
    ensures |h.posts| == |h.postsPagination.results| + |Flatten(h.history)|
    ensures forall k :: 0 <= k <= |h.history| ==>
      h.posts == h.postsPagination.results + Appended(h.history[..k]) + Appended(h.history[k..])
    ensures h.history != [] ==> (h.ShowsLoadMore() <==> Truthy(h.history[|h.history| - 1].nextPage))
  {
    AppendedIsProjectionOfPages(h.history);
    forall k | 0 <= k <= |h.history|
      ensures h.posts == h.postsPagination.results + Appended(h.history[..k]) + Appended(h.history[k..])
    {
      assert h.history[..k] + h.history[k..] == h.history;
      AppendedConcat(h.history[..k], h.history[k..]);
    }
  }

  /** Two pages: a list of two with a cursor, one click that brings a last page, and the button is gone. */
  method TwoPageSession(p1: RawDocument, p2: RawDocument, p3: RawDocument) {
    var home := new HomeState(HomeProps(PostPagination(Some("/api/page2"), ProjectAll([p1, p2])), false));
    assert home.ShowsLoadMore();
    var url := home.Paginate(PageResponse([p3], None));
    assert url == "/api/page2";
    ProjectAllConcat([p1, p2], [p3]);
    assert [p1, p2] + [p3] == [p1, p2, p3];
    assert home.posts == ProjectAll([p1, p2, p3]);
    assert !home.ShowsLoadMore();
  }

  /** Three pages: after page two arrives with a cursor to page three, the next click
      requests page two again and appends it a second time. */
  method ThreePageSession(p1: RawDocument, p2: RawDocument, p3: RawDocument) {
    var first := ProjectAll([p1]);
    var home := new HomeState(HomeProps(PostPagination(Some("/api/page2"), first), false));
    var page2 := PageResponse([p2], Some("/api/page3"));
    var url := home.Paginate(page2);
    assert url == "/api/page2";
    assert home.ShowsLoadMore();
    url := home.Paginate(page2);
    assert url == "/api/page2";
    assert home.posts == first + ProjectAll([p2]) + ProjectAll([p2]);
  }
}
