/** The home page hero carousel: up to five discovered shows as slides, each with its
    backdrop, year, rating and shortened overview, and a row of dots marking the slide
    in view. */
module HeroCarousel {
  import opened JsValue
  import opened JsArray
  import opened Media

  /** How the discover request ended: `fetch` or `res.json()` threw, the response was not
      OK, or a body was parsed. */
  datatype DiscoverOutcome = Failed | NotOk | Ok(body: ListPage)

  datatype Screen = LoadingHero | NoShows | Showing(slides: seq<Item>)

  const FallbackHero: string := "/fallback-hero.jpg"

  class HeroView {
    var slides: seq<Item>
    var loading: bool
    var activeIndex: int

    /** The initial `useState` values. */
    constructor ()
      ensures slides == [] && loading && activeIndex == 0
    {
      slides, loading, activeIndex := [], true, 0;
    }

    /** The rest of `fetchDiscoverTv`: a body with `results` gives the first five of them
        as slides; a non-OK response, a thrown error, or a body without `results` (its
        `slice` throws and is caught) keeps the slides. Loading ends in every case. */
    method ReceiveDiscover(outcome: DiscoverOutcome)
      modifies this
      ensures outcome.Ok? && outcome.body.results.Some? ==>
        var rs := outcome.body.results.value;
        |slides| <= 5 && |slides| <= |rs| && slides == rs[..|slides|] && (|slides| == 5 || slides == rs)
      ensures !(outcome.Ok? && outcome.body.results.Some?) ==> slides == old(slides)
      ensures !loading && activeIndex == old(activeIndex)
      ensures old(slides) == [] && !(outcome.Ok? && outcome.body.results.Some? && outcome.body.results.value != []) ==>
        View() == NoShows
    {
      if outcome.Ok? && outcome.body.results.Some? {
        slides := Slice(outcome.body.results.value, 5);
      }
      loading := false;
    }

    /** The carousel's `select` event: the snap it reports becomes the active index. */
    method SelectSnap(snap: int)
      modifies this
      ensures activeIndex == snap && slides == old(slides) && loading == old(loading)
    {
      activeIndex := snap;
    }

    /** The spinner while loading, "No shows available" for no slides, else the slides. */
    function View(): (s: Screen)
      reads this
      ensures s.LoadingHero? <==> loading
      ensures s.NoShows? <==> !loading && slides == []
      ensures s.Showing? ==> s.slides == slides && slides != []
    {
      if loading then LoadingHero
      else if slides == [] then NoShows
      else Showing(slides)
    }

    /** The dots under the slides: which one is highlighted. */
    function Dots(): (ds: seq<bool>)
      reads this
      ensures |ds| == |slides|
      ensures forall i :: 0 <= i < |ds| ==> (ds[i] <==> i == activeIndex)
    {
      DotHighlights(|slides|, activeIndex)
    }
  }

  /** `i === activeIndex` for each of `n` dots. */
  function DotHighlights(n: nat, active: int): (ds: seq<bool>)
    ensures |ds| == n
    ensures forall i :: 0 <= i < n ==> (ds[i] <==> i == active)
  {
    if n == 0 then [] else DotHighlights(n - 1, active) + [n - 1 == active]
  }

  /** Exactly one dot is highlighted when the active index names a slide, and none
      otherwise. */
  lemma {:induction false} OneDotHighlighted(n: nat, active: int)
    ensures CountTrue(DotHighlights(n, active)) == if 0 <= active < n then 1 else 0
  {
    if n > 0 {
      OneDotHighlighted(n - 1, active);
      var ds := DotHighlights(n, active);
      assert ds[..n - 1] == DotHighlights(n - 1, active);
    }
  }

  /** The overview under the title: longer than 250 characters, it is cut to its first
      250 and "..." is added. */
  function TruncatedOverview(s: string): (r: string)
    ensures |s| > 250 ==> |r| == 253 && r[..250] == s[..250] && r[250..] == "..."
    ensures |s| <= 250 ==> r == s
  {
    if |s| > 250 then s[..250] + "..." else s
  }

  /** Shortening is stable: shortening an already shortened overview changes nothing,
      so no overview ever gets a second "...". */
  lemma TruncationIdempotent(s: string)
    ensures TruncatedOverview(TruncatedOverview(s)) == TruncatedOverview(s)
  {
    var r := TruncatedOverview(s);
    if |s| > 250 {
      assert r[..250] + "..." == r;
    }
  }

  /** An overview is shown unchanged exactly when it fits in 250 characters or already
      is 250 characters followed by "...". */
  lemma TruncationKeeps(s: string)
    ensures TruncatedOverview(s) == s <==> |s| <= 250 || (|s| == 253 && s[250..] == "...")
  {
    if |s| == 253 && s[250..] == "..." {
      assert s[..250] + "..." == s;
    }
  }

  /** `slide.backdrop_path ? original + path : "/fallback-hero.jpg"`. */
  function SlideImage(slide: Item): (u: string)
    ensures u == FallbackHero <==> !Truthy(slide.backdropPath)
    ensures Truthy(slide.backdropPath) ==> u == TmdbOriginal + slide.backdropPath.value
  {
    ImageFallsBackExactly(TmdbOriginal, slide.backdropPath, FallbackHero);
    ImageUrl(TmdbOriginal, slide.backdropPath, FallbackHero)
  }

  /** `slide.first_air_date?.slice(0, 4)`. */
  function SlideYear(slide: Item): (y: Option<string>)
    ensures y.Some? <==> slide.firstAirDate.Some?
    ensures y.Some? ==>
      var d := slide.firstAirDate.value;
      |y.value| == (if |d| < 4 then |d| else 4) && y.value == d[..|y.value|]
  {
    match slide.firstAirDate
    case Some(d) => Some(Slice(d, 4))
    case None => None
  }

  /** "Play Now" opens the show details view of the slide's show. */
  function PlayNow(slide: Item): (r: Route)
    ensures r.id == slide.id
    ensures ParseDetailPath(Path(r)) == Some((Tv, slide.id))
  {
    PathRoundTrip(ShowRoute(slide.id));
    ShowRoute(slide.id)
  }
}
