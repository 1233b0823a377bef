/** The catalog entries every page receives from the metadata API, the paginated list
    payload, the `all | movie | tv` display filter, the title/date fallbacks and the detail
    routes a card navigates to. */
module Media {
  import opened JsValue
  import opened JsArray
  import opened JsString

  /** One entry of a `results` array (`SearchResult`, `MediaItem`, `Movie`, `TvShow`,
      `TMDBTvShow` are all this JSON object with different fields filled in). */
  datatype Item = Item(
    id: nat,
    mediaType: string,             // "movie", "tv", or e.g. "person" from the multi search
    title: Option<string>,         // movies
    name: Option<string>,          // tv shows
    overview: string,
    posterPath: Option<string>,
    backdropPath: Option<string>,
    voteAverage: real,
    releaseDate: Option<string>,   // movies
    firstAirDate: Option<string>,  // tv shows
    genreIds: seq<int>)

  /** The JSON body of a paginated list endpoint. */
  datatype ListPage = ListPage(
    results: Option<seq<Item>>,
    page: int,
    totalPages: int,
    totalResults: int)

  /** `data.results ?? []`. */
  function Results(data: ListPage): seq<Item> {
    Coalesce(data.results, [])
  }

  /** `r.media_type === "movie" || r.media_type === "tv"`. */
  predicate IsScreenMedia(r: Item) {
    r.mediaType == "movie" || r.mediaType == "tv"
  }

  /** `.filter(r => r.media_type === "movie" || r.media_type === "tv")`. */
  function KeepScreenMedia(rs: seq<Item>): (r: seq<Item>)
    ensures forall i :: 0 <= i < |r| ==> IsScreenMedia(r[i])
  {
    Filter(IsScreenMedia, rs)
  }

  /** The movie/tv restriction keeps exactly the movie and tv entries, in their order, and
      a second application changes nothing. */
  lemma KeepScreenMediaSpec(rs: seq<Item>)
    ensures IsSubsequence(KeepScreenMedia(rs), rs)
    ensures forall x :: multiset(KeepScreenMedia(rs))[x] == if IsScreenMedia(x) then multiset(rs)[x] else 0
    ensures KeepScreenMedia(KeepScreenMedia(rs)) == KeepScreenMedia(rs)
  {
    FilterIsSubsequence(IsScreenMedia, rs);
    FilterCounts(IsScreenMedia, rs);
    FilterIdempotent(IsScreenMedia, rs);
  }

  /** The display filter of the search and trending pages. */
  datatype MediaFilter = All | MovieOnly | TvOnly {
    /** The `media_type` value a non-`all` filter selects. */
    function Tag(): string
      requires !All?
    {
      if MovieOnly? then "movie" else "tv"
    }
  }

  /** `filter === "all" ? items : items.filter(r => r.media_type === filter)`. */
  function ApplyFilter(f: MediaFilter, items: seq<Item>): (r: seq<Item>)
    ensures f.All? ==> r == items
    ensures |r| <= |items|
    ensures !f.All? ==> forall i :: 0 <= i < |r| ==> r[i].mediaType == f.Tag() && r[i] in items
    ensures !f.All? ==> forall i :: 0 <= i < |items| && items[i].mediaType == f.Tag() ==> items[i] in r
  {
    if f.All? then items else Filter((r: Item) => r.mediaType == f.Tag(), items)
  }

  /** `all` is the identity; `movie` and `tv` keep exactly the entries of that type,
      each as often as it occurs, in their original order. */
  lemma ApplyFilterSpec(f: MediaFilter, items: seq<Item>)
    ensures f.All? ==> ApplyFilter(f, items) == items
    ensures !f.All? ==> IsSubsequence(ApplyFilter(f, items), items)
    ensures !f.All? ==> forall x :: multiset(ApplyFilter(f, items))[x] ==
                                     if x.mediaType == f.Tag() then multiset(items)[x] else 0
  {
    if !f.All? {
      var p := (r: Item) => r.mediaType == f.Tag();
      FilterIsSubsequence(p, items);
      FilterCounts(p, items);
    }
  }

  /** A list of movies and shows stays one under any display filter. */
  lemma ApplyFilterKeepsScreenMedia(f: MediaFilter, items: seq<Item>)
    requires forall i :: 0 <= i < |items| ==> IsScreenMedia(items[i])
    ensures forall i :: 0 <= i < |ApplyFilter(f, items)| ==> IsScreenMedia(ApplyFilter(f, items)[i])
  {
    if !f.All? {
      var p := (r: Item) => r.mediaType == f.Tag();
      forall i | 0 <= i < |ApplyFilter(f, items)|
        ensures IsScreenMedia(ApplyFilter(f, items)[i])
      {
        assert p(ApplyFilter(f, items)[i]);
      }
    }
  }

  /** `item.title ?? item.name ?? "Unknown"`: falls back only on an absent field, so a
      present empty title is shown as it is. */
  function DisplayTitle(item: Item): (t: string)
    ensures item.title.Some? ==> t == item.title.value
    ensures item.title.None? && item.name.Some? ==> t == item.name.value
    ensures item.title.None? && item.name.None? ==> t == "Unknown"
  {
    Coalesce(OrElse(item.title, item.name), "Unknown")
  }

  /** `item.release_date ?? item.first_air_date`: a present release date wins, even an
      empty one; the date is absent only when both are. */
  function DisplayDate(item: Item): (d: Option<string>)
    ensures item.releaseDate.Some? ==> d == item.releaseDate
    ensures item.releaseDate.None? ==> d == item.firstAirDate
  {
    OrElse(item.releaseDate, item.firstAirDate)
  }

  /** Image CDN bases and the local fallback images. */
  const TmdbOriginal: string := "https://image.tmdb.org/t/p/original"
  const TmdbW500: string := "https://image.tmdb.org/t/p/w500"
  const TmdbW300: string := "https://image.tmdb.org/t/p/w300"
  const TmdbW185: string := "https://image.tmdb.org/t/p/w185"
  const Placeholder: string := "/placeholder.jpg"

  /** The em dash shown for a missing value. */
  const EmDash: string := "\U{2014}"

  /** `path ? `${base}${path}` : fallback`: a missing or empty path gives the fallback. */
  function ImageUrl(base: string, path: Option<string>, fallback: string): (u: string)
    ensures Truthy(path) ==> u == base + path.value
    ensures !Truthy(path) ==> u == fallback
  {
    if Truthy(path) then base + path.value else fallback
  }

  /** A CDN address never looks like a local fallback, so the fallback is shown exactly
      when the path is missing or empty. */
  lemma ImageFallsBackExactly(base: string, path: Option<string>, fallback: string)
    requires base != [] && fallback != [] && base[0] != fallback[0]
    ensures ImageUrl(base, path, fallback) == fallback <==> !Truthy(path)
  {
    if Truthy(path) {
      assert ImageUrl(base, path, fallback)[0] == base[0];
    }
  }

  /** The detail pages a card can navigate to. */
  datatype Route = MovieRoute(id: nat) | ShowRoute(id: nat)

  /** `/movie/${id}` or `/show/${id}`. */
  function Path(r: Route): string {
    match r
    case MovieRoute(id) => "/movie/" + NatToString(id)
    case ShowRoute(id) => "/show/" + NatToString(id)
  }

  /** The detail page kind: the `type` prop of the details view. */
  datatype Kind = Movie | Tv

  /** The route table entries `/show/:id` (type "tv") and `/movie/:id` (type "movie"),
      followed by the details view's `Number(id)`. */
  function ParseDetailPath(p: string): Option<(Kind, nat)> {
    if |p| >= 7 && p[..7] == "/movie/" then
      match ParseNat(p[7..])
      case Some(id) => Some((Movie, id))
      case None => None
    else if |p| >= 6 && p[..6] == "/show/" then
      match ParseNat(p[6..])
      case Some(id) => Some((Tv, id))
      case None => None
    else None
  }

  /** A card's route opens the details view of the same kind for the same id. */
  lemma PathRoundTrip(r: Route)
    ensures ParseDetailPath(Path(r)) ==
      Some(if r.MovieRoute? then (Movie, r.id) else (Tv, r.id))
  {
    NatToStringRoundTrip(r.id);
    var p := Path(r);
    if r.MovieRoute? {
      assert p[..7] == "/movie/" && p[7..] == NatToString(r.id);
    } else {
      assert p[..6] == "/show/" && p[6..] == NatToString(r.id);
      assert p[..7] != "/movie/" by { assert p[1] == 's'; }
    }
  }

  /** `media_type === "movie" ? /movie/id : /show/id`. */
  function CardRoute(item: Item): (r: Route)
    ensures r.id == item.id
    ensures r.MovieRoute? <==> item.mediaType == "movie"
  {
    if item.mediaType == "movie" then MovieRoute(item.id) else ShowRoute(item.id)
  }

  /** The numbered cards `{index + 1}` of a rendered list. */
  function Ranked(items: seq<Item>): (r: seq<(nat, Item)>)
    ensures |r| == |items|
    ensures forall i :: 0 <= i < |r| ==> r[i].1 == items[i] && r[i].0 == i + 1
  {
    seq(|items|, i requires 0 <= i < |items| => (i + 1, items[i]))
  }
}
