/** The home page's featured banner: a carousel of on-the-air shows whose clicked card
    becomes the active show, painted as the background and described on the right. */
module FeaturedBanner {
  import opened JsValue
  import opened Media

  class BannerView {
    var shows: seq<Item>
    var activeIndex: int

    /** The initial `useState` values. */
    constructor ()
      ensures shows == [] && activeIndex == 0
    {
      shows, activeIndex := [], 0;
    }

    /** The rest of `fetchOnAir`: the shows of the response become the list; a thrown
        error is caught and leaves the list as it was (empty, at first). */
    method ReceiveShows(outcome: Settled<seq<Item>>)
      modifies this
      ensures outcome.Resolved? ==> shows == outcome.value
      ensures outcome.Rejected? ==> shows == old(shows)
      ensures activeIndex == old(activeIndex)
      ensures outcome.Resolved? && activeIndex == 0 ==> (PanelShown() <==> outcome.value != [])
    {
      if outcome.Resolved? {
        shows := outcome.value;
      }
    }

    /** A card click: that card's show becomes the active one; nothing else changes, and
        in particular the page does not navigate. */
    method ClickCard(i: nat)
      requires i < |shows|
      modifies this
      ensures activeIndex == i && shows == old(shows)
      ensures ActiveShow() == Some(shows[i]) && PanelShown()
    {
      activeIndex := i;
    }

    /** `shows[activeIndex]`, absent when the index is outside the list. */
    function ActiveShow(): (r: Option<Item>)
      reads this
      ensures r.Some? <==> 0 <= activeIndex < |shows|
      ensures r.Some? ==> r.value == shows[activeIndex]
    {
      if 0 <= activeIndex < |shows| then Some(shows[activeIndex]) else None
    }

    /** The details panel is rendered only for an active show. */
    predicate PanelShown()
      reads this
      ensures PanelShown() <==> 0 <= activeIndex < |shows|
    {
      ActiveShow().Some?
    }

    /** The section's background image. */
    function Background(): (u: string)
      reads this
      ensures u == Placeholder <==>
        !PanelShown() || (!Truthy(shows[activeIndex].backdropPath) && !Truthy(shows[activeIndex].posterPath))
      ensures PanelShown() && Truthy(shows[activeIndex].backdropPath) ==>
        u == TmdbOriginal + shows[activeIndex].backdropPath.value
      ensures PanelShown() && !Truthy(shows[activeIndex].backdropPath) && Truthy(shows[activeIndex].posterPath) ==>
        u == TmdbOriginal + shows[activeIndex].posterPath.value
    {
      BackgroundPlaceholderExactly(ActiveShow());
      BackgroundImage(ActiveShow())
    }

    /** "Play Now" in the panel: the details route of the active show. */
    function PlayNow(): (r: Route)
      reads this
      requires PanelShown()
      ensures r.id == shows[activeIndex].id
      ensures ParseDetailPath(Path(r)) == Some((Tv, shows[activeIndex].id))
    {
      var r := ShowRoute(ActiveShow().value.id);
      PathRoundTrip(r);
      r
    }
  }

  /** `activeShow?.backdrop_path || activeShow?.poster_path ? original + (backdrop ||
      poster) : "/placeholder.jpg"`: a non-empty backdrop wins over a non-empty poster. */
  function BackgroundImage(active: Option<Item>): (u: string)
    ensures active.None? ==> u == Placeholder
    ensures active.Some? && Truthy(active.value.backdropPath) ==>
      u == TmdbOriginal + active.value.backdropPath.value
    ensures active.Some? && !Truthy(active.value.backdropPath) && Truthy(active.value.posterPath) ==>
      u == TmdbOriginal + active.value.posterPath.value
    ensures active.Some? && !Truthy(active.value.backdropPath) && !Truthy(active.value.posterPath) ==>
      u == Placeholder
  {
    match active
    case None => Placeholder
    case Some(show) =>
      if Truthy(show.backdropPath) then TmdbOriginal + show.backdropPath.value
      else if Truthy(show.posterPath) then TmdbOriginal + show.posterPath.value
      else Placeholder
  }

  /** The placeholder is shown exactly when there is no active show or it has neither a
      usable backdrop nor a usable poster. */
  lemma BackgroundPlaceholderExactly(active: Option<Item>)
    ensures BackgroundImage(active) == Placeholder <==>
      active.None? || (!Truthy(active.value.backdropPath) && !Truthy(active.value.posterPath))
  {
    if active.Some? && (Truthy(active.value.backdropPath) || Truthy(active.value.posterPath)) {
      assert BackgroundImage(active)[0] == 'h';
    }
  }

  /** The panel's overview: `overview || "No description available."`. */
  function PanelOverview(show: Item): (s: string)
    ensures s != ""
    ensures show.overview != "" ==> s == show.overview
    ensures show.overview == "" ==> s == "No description available."
  {
    if show.overview != "" then show.overview else "No description available."
  }
}
