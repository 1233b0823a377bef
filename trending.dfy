/** The trending page: the time window drives a paginated list of trending movies and
    shows, accumulated in `items` by "Load More" and shown through the display filter. */
module Trending {
  import opened JsValue
  import opened JsArray
  import opened Media

  datatype TimeWindow = Day | Week

  class TrendingView {
    var items: seq<Item>
    var loading: bool
    var timeWindow: TimeWindow
    var filter: MediaFilter
    var page: int
    var totalPages: int
    var loadingMore: bool

    /** Every stored item is a movie or a show: both writers keep only those. */
    ghost predicate Valid()
      reads this
    {
      forall i :: 0 <= i < |items| ==> IsScreenMedia(items[i])
    }

    /** The initial `useState` values. */
    constructor ()
      ensures Valid()
      ensures items == [] && loading && timeWindow == Day && filter == All
      ensures page == 1 && totalPages == 1 && !loadingMore
    {
      items, loading, timeWindow, filter := [], true, Day, All;
      page, totalPages, loadingMore := 1, 1, false;
    }

    /** The effect on `[timeWindow]` up to its request (it also runs once on mount):
        loading on, back to page 1, and page 1 of the current window is requested.
        The items of the previous window stay until the response arrives. */
    method WindowEffect()
      requires Valid()
      modifies this
      ensures Valid()
      ensures loading && page == 1
      ensures items == old(items) && timeWindow == old(timeWindow) && filter == old(filter)
      ensures totalPages == old(totalPages) && loadingMore == old(loadingMore)
    {
      loading := true;
      page := 1;
    }

    /** A time-window button: choosing the current window changes no state, so the effect
        does not run; any other window runs it. */
    method SelectTimeWindow(tw: TimeWindow) returns (requested: bool)
      requires Valid()
      modifies this
      ensures Valid()
      ensures timeWindow == tw
      ensures requested <==> tw != old(timeWindow)
      ensures requested ==> loading && page == 1
      ensures !requested ==> loading == old(loading) && page == old(page)
      ensures items == old(items) && filter == old(filter)
      ensures totalPages == old(totalPages) && loadingMore == old(loadingMore)
    {
      requested := tw != timeWindow;
      timeWindow := tw;
      if requested {
        WindowEffect();
      }
    }

    /** The effect's `.then`: the items become the page-1 results restricted to movies and
        shows (none when `results` is absent), the total comes from the response, and
        loading ends. A rejected request runs no continuation. */
    method ReceiveFirstPage(data: ListPage)
      requires Valid()
      modifies this
      ensures Valid()
      ensures items == KeepScreenMedia(Results(data))
      ensures totalPages == data.totalPages && !loading
      ensures page == old(page) && timeWindow == old(timeWindow) && filter == old(filter)
      ensures loadingMore == old(loadingMore)
      ensures LoadMoreShown() <==> page < data.totalPages
    {
      items := KeepScreenMedia(Results(data));
      totalPages := data.totalPages;
      loading := false;
    }

    /** `loadMore` up to its `await`: requests the page after the current one. */
    method BeginLoadMore() returns (next: int)
      requires Valid()
      requires !loadingMore  // the button is disabled while a load runs
      modifies this
      ensures Valid()
      ensures next == page + 1 && loadingMore
      ensures items == old(items) && loading == old(loading) && timeWindow == old(timeWindow)
      ensures filter == old(filter) && page == old(page) && totalPages == old(totalPages)
    {
      loadingMore := true;
      next := page + 1;
    }

    /** The rest of `loadMore`: the movie and tv results of page `next` are appended after
        the existing items, which keep their order, and `next` becomes the page. */
    method ReceiveMore(next: int, data: ListPage)
      requires Valid()
      modifies this
      ensures Valid()
      ensures items == old(items) + KeepScreenMedia(Results(data))
      ensures |old(items)| <= |items| && items[..|old(items)|] == old(items)
      ensures page == next && !loadingMore
      ensures loading == old(loading) && timeWindow == old(timeWindow) && filter == old(filter)
      ensures totalPages == old(totalPages)
      ensures next >= totalPages ==> !LoadMoreShown()
    {
      items := items + KeepScreenMedia(Results(data));
      page := next;
      loadingMore := false;
    }

    /** A filter tab click. */
    method SelectFilter(f: MediaFilter)
      requires Valid()
      modifies this
      ensures Valid()
      ensures filter == f
      ensures items == old(items) && loading == old(loading) && timeWindow == old(timeWindow)
      ensures page == old(page) && totalPages == old(totalPages) && loadingMore == old(loadingMore)
    {
      filter := f;
    }

    /** The grid: the filtered items, each badged with its position in the filtered
        list plus one; every entry is a movie or a show. */
    function Grid(): (g: seq<(nat, Item)>)
      reads this
      requires Valid()
      ensures |g| == |ApplyFilter(filter, items)|
      ensures forall i :: 0 <= i < |g| ==> g[i].0 == i + 1 && g[i].1 == ApplyFilter(filter, items)[i]
      ensures forall i :: 0 <= i < |g| ==> IsScreenMedia(g[i].1)
    {
      ApplyFilterKeepsScreenMedia(filter, items);
      Ranked(ApplyFilter(filter, items))
    }

    /** "Load More" is rendered once loading is over and pages are left, so the page it
        requests exists. */
    predicate LoadMoreShown()
      reads this
      ensures LoadMoreShown() ==> !loading && page + 1 <= totalPages
    {
      !loading && page < totalPages
    }
  }

  /** Accumulating pages one by one gives the same items as restricting all the pages,
      concatenated in request order, to movies and shows in one go. */
  lemma {:induction false} AccumulatedPages(first: ListPage, later: seq<ListPage>)
    ensures Accumulate(KeepScreenMedia(Results(first)), later) ==
            KeepScreenMedia(Results(first) + Concat(later))
  {
    if later == [] {
      assert Results(first) + Concat(later) == Results(first);
    } else {
      var last := later[|later| - 1];
      var init := later[..|later| - 1];
      AccumulatedPages(first, init);
      assert Concat(later) == Concat(init) + Results(last);
      assert Results(first) + Concat(later) == (Results(first) + Concat(init)) + Results(last);
      FilterAppend(IsScreenMedia, Results(first) + Concat(init), Results(last));
    }
  }

  /** The items after the first page and then `later` pages arrived, in that order. */
  function Accumulate(items: seq<Item>, later: seq<ListPage>): seq<Item> {
    if later == [] then items
    else Accumulate(items, later[..|later| - 1]) + KeepScreenMedia(Results(later[|later| - 1]))
  }

  /** All results of the given pages, in order. */
  function Concat(pages: seq<ListPage>): seq<Item> {
    if pages == [] then [] else Concat(pages[..|pages| - 1]) + Results(pages[|pages| - 1])
  }
}
