/** The upcoming page: two tabs (upcoming movies, on-the-air shows), each with its own
    accumulated list, a shared page counter, a featured entry and countdown badges. */
module Upcoming {
  import opened JsValue
  import opened JsString
  import opened Media

  datatype Tab = Movies | TvShows

  /** `formatDate(dateStr)`: an absent or empty date reads "TBA"; any other date is
      written out by the browser's locale formatting, which is not modelled. */
  datatype DateText = Tba | Localized(date: string)

  function FormatDate(date: Option<string>): (r: DateText)
    ensures r.Tba? <==> !Truthy(date)
    ensures r.Localized? ==> r.date == date.value
  {
    if !Truthy(date) then Tba else Localized(date.value)
  }

  /** The label of `daysUntil(dateStr)` for a release `days` whole days away (rounded up);
      reading the clock is left to the caller. */
  function Countdown(date: Option<string>, days: int): (r: Option<string>)
    ensures !Truthy(date) || days < 0 ==> r == None
    ensures Truthy(date) && days == 0 ==> r == Some("Today")
    ensures Truthy(date) && days == 1 ==> r == Some("Tomorrow")
    ensures Truthy(date) && days > 1 ==> r == Some("In " + NatToString(days) + " days")
  {
    if !Truthy(date) then None
    else if days < 0 then None
    else if days == 0 then Some("Today")
    else if days == 1 then Some("Tomorrow")
    else Some("In " + NatToString(days) + " days")
  }

  /** A countdown badge tells the day count: two non-negative counts with the same badge
      are the same count. */
  lemma CountdownDeterminesDays(date: Option<string>, m: int, n: int)
    requires Countdown(date, m).Some? && Countdown(date, m) == Countdown(date, n)
    ensures m == n
  {
    if m > 1 && n > 1 {
      var l := "In " + NatToString(m) + " days";
      assert l == "In " + NatToString(n) + " days";
      assert NatToString(m) == l[3..|l| - 5];
      assert NatToString(n) == l[3..|l| - 5];
      NatToStringInjective(m, n);
    }
  }

  /** The title a tab shows for an entry: movies have `title`, shows `name`. */
  function TabTitle(tab: Tab, item: Item): Option<string> {
    if tab == Movies then item.title else item.name
  }

  /** The date a tab uses for an entry: `release_date` or `first_air_date`. */
  function TabDate(tab: Tab, item: Item): Option<string> {
    if tab == Movies then item.releaseDate else item.firstAirDate
  }

  /** Where a card or the hero's button goes: `/movie/id` on the movies tab, else `/show/id`. */
  function TabRoute(tab: Tab, item: Item): (r: Route)
    ensures r.id == item.id && (r.MovieRoute? <==> tab == Movies)
  {
    if tab == Movies then MovieRoute(item.id) else ShowRoute(item.id)
  }

  /** What the hero section shows for the featured entry. */
  datatype HeroPanel = HeroPanel(title: Option<string>, date: DateText, image: string, route: Route)

  class UpcomingView {
    var tab: Tab
    var movies: seq<Item>
    var tvShows: seq<Item>
    var loading: bool
    var page: int
    var totalPages: int
    var loadingMore: bool
    var featuredIndex: int

    /** The initial `useState` values. */
    constructor ()
      ensures tab == Movies && movies == [] && tvShows == [] && loading
      ensures page == 1 && totalPages == 1 && !loadingMore && featuredIndex == 0
    {
      tab, movies, tvShows, loading := Movies, [], [], true;
      page, totalPages, loadingMore, featuredIndex := 1, 1, false, 0;
    }

    /** The effect on `[tab]` up to its request (it also runs once on mount): loading on,
        back to page 1; the request is for the current tab. */
    method TabEffect() returns (requested: Tab)
      modifies this
      ensures requested == tab
      ensures loading && page == 1
      ensures tab == old(tab) && movies == old(movies) && tvShows == old(tvShows)
      ensures totalPages == old(totalPages) && loadingMore == old(loadingMore)
      ensures featuredIndex == old(featuredIndex)
    {
      loading := true;
      page := 1;
      requested := tab;
    }

    /** A tab button: choosing the current tab changes no state and requests nothing. */
    method SelectTab(t: Tab) returns (requested: Option<Tab>)
      modifies this
      ensures tab == t
      ensures requested == (if t != old(tab) then Some(t) else None)
      ensures requested.Some? ==> loading && page == 1
      ensures requested.None? ==> loading == old(loading) && page == old(page)
      ensures movies == old(movies) && tvShows == old(tvShows)
      ensures totalPages == old(totalPages) && loadingMore == old(loadingMore)
      ensures featuredIndex == old(featuredIndex)
    {
      requested := None;
      if t != tab {
        tab := t;
        var r := TabEffect();
        requested := Some(r);
      }
    }

    /** The effect's `.then` for the tab `t` it was started for: that tab's list becomes the
        page-1 results (empty when absent), the other tab's list is untouched, the total
        comes from the response, the first entry is featured, and loading ends. */
    method ReceiveFirstPage(t: Tab, data: ListPage)
      modifies this
      ensures t == Movies ==> movies == Results(data) && tvShows == old(tvShows)
      ensures t == TvShows ==> tvShows == Results(data) && movies == old(movies)
      ensures totalPages == data.totalPages && featuredIndex == 0 && !loading
      ensures tab == old(tab) && page == old(page) && loadingMore == old(loadingMore)
      ensures t != tab ==> Items() == old(Items())
      ensures t == tab ==> Items() == Results(data)
      ensures t == tab ==> Featured() == (if Results(data) == [] then None else Some(Results(data)[0]))
      ensures t == tab ==> (HeroShown() <==> Results(data) != [])
      ensures LoadMoreShown() <==> page < data.totalPages
    {
      if t == Movies {
        movies := Results(data);
      } else {
        tvShows := Results(data);
      }
      totalPages := data.totalPages;
      featuredIndex := 0;
      loading := false;
    }

    /** `loadMore` up to its `await`: requests the page after the current one, for the
        current tab. */
    method BeginLoadMore() returns (next: int, t: Tab)
      requires !loadingMore  // the button is disabled while a load runs
      modifies this
      ensures next == page + 1 && t == tab && loadingMore
      ensures tab == old(tab) && movies == old(movies) && tvShows == old(tvShows)
      ensures loading == old(loading) && page == old(page) && totalPages == old(totalPages)
      ensures featuredIndex == old(featuredIndex)
    {
      loadingMore := true;
      next, t := page + 1, tab;
    }

    /** The rest of `loadMore`: page `next` is appended to the list of the tab it was
        requested for, the other list is untouched, and `next` becomes the page. */
    method ReceiveMore(t: Tab, next: int, data: ListPage)
      modifies this
      ensures t == Movies ==> movies == old(movies) + Results(data) && tvShows == old(tvShows)
      ensures t == TvShows ==> tvShows == old(tvShows) + Results(data) && movies == old(movies)
      ensures page == next && !loadingMore
      ensures tab == old(tab) && loading == old(loading) && totalPages == old(totalPages)
      ensures featuredIndex == old(featuredIndex)
      ensures t != tab ==> Items() == old(Items())
      ensures t == tab ==> |old(Items())| <= |Items()| && Items()[..|old(Items())|] == old(Items())
      ensures old(Featured()).Some? ==> Featured() == old(Featured())
      ensures next >= totalPages ==> !LoadMoreShown()
    {
      if t == Movies {
        movies := movies + Results(data);
      } else {
        tvShows := tvShows + Results(data);
      }
      page := next;
      loadingMore := false;
    }

    /** Clicking card `i`: it becomes the featured entry, and the page navigates to its
        details. */
    method ClickCard(i: nat) returns (route: Route)
      requires i < |Items()|
      modifies this
      ensures featuredIndex == i
      ensures Items() == old(Items())
      ensures route == TabRoute(tab, Items()[i])
      ensures tab == old(tab) && movies == old(movies) && tvShows == old(tvShows)
      ensures loading == old(loading) && page == old(page) && totalPages == old(totalPages)
      ensures loadingMore == old(loadingMore)
    {
      featuredIndex := i;
      route := TabRoute(tab, Items()[i]);
    }

    /** The displayed list: the active tab's. */
    function Items(): seq<Item>
      reads this
    {
      if tab == Movies then movies else tvShows
    }

    /** `items[featuredIndex]`, or nothing when the index is out of range. */
    function Featured(): (r: Option<Item>)
      reads this
      ensures r.Some? <==> 0 <= featuredIndex < |Items()|
      ensures r.Some? ==> r.value == Items()[featuredIndex]
    {
      if 0 <= featuredIndex < |Items()| then Some(Items()[featuredIndex]) else None
    }

    /** The hero is shown for a featured entry once loading is over (an entry is an
        object, so `featured &&` only tests that the index is in range). */
    predicate HeroShown()
      reads this
      ensures HeroShown() ==> !loading && 0 <= featuredIndex < |Items()|
    {
      Featured().Some? && !loading
    }

    /** The hero section: the featured entry's title and date by tab, its backdrop,
        and the details route of its "View Details" button. */
    function Hero(): (h: Option<HeroPanel>)
      reads this
      ensures h.Some? <==> HeroShown()
      ensures h.Some? ==>
        var f := Items()[featuredIndex];
        && h.value.title == (if tab == Movies then f.title else f.name)
        && h.value.date == FormatDate(if tab == Movies then f.releaseDate else f.firstAirDate)
        && (h.value.image == Placeholder <==> !Truthy(f.backdropPath))
        && (Truthy(f.backdropPath) ==> h.value.image == TmdbOriginal + f.backdropPath.value)
        && ParseDetailPath(Path(h.value.route)) == Some((if tab == Movies then Movie else Tv, f.id))
    {
      if !HeroShown() then None
      else
        var f := Featured().value;
        ImageFallsBackExactly(TmdbOriginal, f.backdropPath, Placeholder);
        PathRoundTrip(TabRoute(tab, f));
        Some(HeroPanel(TabTitle(tab, f), FormatDate(TabDate(tab, f)),
                       ImageUrl(TmdbOriginal, f.backdropPath, Placeholder), TabRoute(tab, f)))
    }

    /** "Load More" is rendered once loading is over and pages are left, so the page it
        requests exists. */
    predicate LoadMoreShown()
      reads this
      ensures LoadMoreShown() ==> !loading && page + 1 <= totalPages
    {
      !loading && page < totalPages
    }
  }
}
