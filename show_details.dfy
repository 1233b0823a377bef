/** The details page of one movie or show: the fetch effect that fills `media`, the
    loading / not-found / page decision, and the normalisation of the detail record into
    what the page shows. */
module ShowDetails {
  import opened JsValue
  import opened JsArray
  import opened JsString
  import opened Media

  datatype CastMember = CastMember(id: int, name: Option<string>, character: Option<string>, profilePath: Option<string>)
  datatype CrewMember = CrewMember(job: Option<string>, name: Option<string>)
  /** An entry of `videos.results`; `kind` is the JSON `type` field. */
  datatype Video = Video(kind: Option<string>, site: Option<string>, key: Option<string>)
  datatype Genre = Genre(name: string)

  /** `number_of_seasons`: absent from the body, present as JSON `null`, or a number.
      The template prints the first as "undefined" and the second as "null". */
  datatype SeasonsField = Absent | Null | Seasons(n: int)

  /** The detail body with `credits`, `videos` and `recommendations` appended. A nested
      list is absent when it or its parent object is (`media.credits?.cast`). */
  datatype Detail = Detail(
    success: Option<bool>,        // `false` in the API's error bodies
    title: Option<string>,
    name: Option<string>,
    releaseDate: Option<string>,
    firstAirDate: Option<string>,
    runtime: Option<int>,
    episodeRunTime: Option<seq<int>>,
    numberOfSeasons: SeasonsField,
    status: Option<string>,
    backdropPath: Option<string>,
    posterPath: Option<string>,
    overview: Option<string>,
    cast: Option<seq<CastMember>>,
    crew: Option<seq<CrewMember>>,
    videos: Option<seq<Video>>,
    recommendations: Option<seq<Item>>,
    genres: Option<seq<Genre>>)

  /** The normalised record the page renders. */
  datatype DetailPage = DetailPage(
    title: Option<string>,
    date: Option<string>,
    runtime: Option<string>,
    seasons: Option<string>,
    status: Option<string>,
    statusColor: string,
    typeLabel: string,
    backdrop: string,
    poster: string,
    cast: seq<CastMember>,
    trailer: Option<Video>,
    recommendations: seq<Item>,
    genres: seq<string>,
    heroGenres: seq<string>,
    overview: string,
    director: Option<string>)     // shown only on movie pages

  datatype Screen = LoadingScreen | NotFound | Page(page: DetailPage)

  /** The error body check: a missing record, or one that says `success: false`. */
  predicate IsMissing(media: Option<Detail>) {
    media.None? || media.value.success == Some(false)
  }

  class DetailsView {
    var media: Option<Detail>
    var loading: bool

    /** The initial `useState` values. */
    constructor ()
      ensures media == None && loading
    {
      media, loading := None, true;
    }

    /** The effect on `[id, type]` up to its request: without an id nothing happens;
        otherwise loading turns on and the record is requested. The old record stays
        until the response arrives. */
    method Open(id: string) returns (requested: bool)
      modifies this
      ensures requested <==> id != ""
      ensures loading == (requested || old(loading))
      ensures media == old(media)
    {
      requested := id != "";
      if requested {
        loading := true;
      }
    }

    /** The effect's `.then(setMedia).finally(...)`: a parsed body becomes the record, a
        failed request keeps the old one, and loading ends either way. */
    method Settle(outcome: Settled<Detail>)
      modifies this
      ensures outcome.Resolved? ==> media == Some(outcome.value)
      ensures outcome.Rejected? ==> media == old(media)
      ensures !loading
    {
      if outcome.Resolved? {
        media := Some(outcome.value);
      }
      loading := false;
    }

    /** What the page renders: the spinner while loading, "Not found" exactly for a
        missing or failed record, and otherwise the normalised record. */
    function View(kind: Kind): (s: Screen)
      reads this
      ensures s.LoadingScreen? <==> loading
      ensures s.NotFound? <==> !loading && IsMissing(media)
      ensures s.Page? ==> media.Some? && s.page == Normalize(kind, media.value)
    {
      if loading then LoadingScreen
      else if IsMissing(media) then NotFound
      else Page(Normalize(kind, media.value))
    }
  }

  /** The normalisation block: movie pages read `title`/`release_date`, show pages
      `name`/`first_air_date`; lists are capped to what the page shows. */
  function Normalize(kind: Kind, d: Detail): (r: DetailPage)
    ensures kind.Movie? ==> r.title == d.title && r.date == d.releaseDate
    ensures kind.Tv? ==> r.title == d.name && r.date == d.firstAirDate
    ensures r.seasons.Some? <==> kind.Tv?
    ensures r.director.Some? <==> kind.Movie?
    ensures r.typeLabel == (if kind.Movie? then "Movie" else "TV Series")
    ensures |r.cast| <= 8 && |r.cast| <= |Coalesce(d.cast, [])|
    ensures r.cast == Coalesce(d.cast, [])[..|r.cast|]
    ensures |r.cast| == 8 || r.cast == Coalesce(d.cast, [])
    ensures |r.recommendations| <= 3 && |r.recommendations| <= |Coalesce(d.recommendations, [])|
    ensures r.recommendations == Coalesce(d.recommendations, [])[..|r.recommendations|]
    ensures |r.recommendations| == 3 || r.recommendations == Coalesce(d.recommendations, [])
    ensures |r.heroGenres| <= 3 && |r.heroGenres| <= |r.genres| && r.heroGenres == r.genres[..|r.heroGenres|]
    ensures |r.heroGenres| == 3 || r.heroGenres == r.genres
    ensures r.genres == GenreNames(d)
    ensures r.runtime == RuntimeLabel(kind, d) && r.seasons == SeasonsLabel(kind, d)
    ensures r.statusColor == StatusColor(kind, d.status)
    ensures r.backdrop == Backdrop(d) && r.poster == Poster(d)
    ensures r.trailer == Trailer(d) && r.overview == Overview(d)
    ensures kind.Movie? ==> r.director == Some(Director(d))
    ensures r.status == d.status
  {
    var genres := GenreNames(d);
    DetailPage(
      if kind.Movie? then d.title else d.name,
      if kind.Movie? then d.releaseDate else d.firstAirDate,
      RuntimeLabel(kind, d),
      SeasonsLabel(kind, d),
      d.status,
      StatusColor(kind, d.status),
      if kind.Movie? then "Movie" else "TV Series",
      Backdrop(d),
      Poster(d),
      Slice(Coalesce(d.cast, []), 8),
      Trailer(d),
      Slice(Coalesce(d.recommendations, []), 3),
      genres,
      Slice(genres, 3),
      Overview(d),
      if kind.Movie? then Some(Director(d)) else None)
  }

  /** `media.episode_run_time?.[0]`. */
  function FirstEpisodeRuntime(d: Detail): Option<int> {
    match d.episodeRunTime
    case Some(ts) => if ts != [] then Some(ts[0]) else None
    case None => None
  }

  /** The runtime label: `<n>m` for a movie with a non-zero runtime, `<n>m / ep` for a
      show whose first episode runtime is non-zero, and no label otherwise. */
  function RuntimeLabel(kind: Kind, d: Detail): (r: Option<string>)
    ensures kind.Movie? ==> (r.Some? <==> TruthyNumber(d.runtime))
    ensures kind.Movie? && r.Some? ==> r.value == IntToString(d.runtime.value) + "m"
    ensures kind.Tv? ==> (r.Some? <==> TruthyNumber(FirstEpisodeRuntime(d)))
    ensures kind.Tv? && r.Some? ==> r.value == IntToString(FirstEpisodeRuntime(d).value) + "m / ep"
  {
    if kind.Movie? then
      if TruthyNumber(d.runtime) then Some(IntToString(d.runtime.value) + "m") else None
    else
      var t := FirstEpisodeRuntime(d);
      if TruthyNumber(t) then Some(IntToString(t.value) + "m / ep") else None
  }

  /** The minutes can be read back from the label: dropping the unit suffix leaves the
      decimal runtime. */
  lemma RuntimeLabelReadsBack(kind: Kind, d: Detail, n: nat)
    requires n > 0
    requires kind.Movie? ==> d.runtime == Some(n)
    requires kind.Tv? ==> FirstEpisodeRuntime(d) == Some(n)
    ensures RuntimeLabel(kind, d).Some?
    ensures var s := RuntimeLabel(kind, d).value;
      var unit := if kind.Movie? then 1 else 6;
      |s| > unit && ParseNat(s[..|s| - unit]) == Some(n)
  {
    NatToStringRoundTrip(n);
    var s := RuntimeLabel(kind, d).value;
    if kind.Movie? {
      assert s[..|s| - 1] == NatToString(n);
    } else {
      assert s[..|s| - 6] == NatToString(n);
    }
  }

  /** `number_of_seasons` as the template prints it. */
  function SeasonCount(n: SeasonsField): (s: string)
    ensures n.Absent? ==> s == "undefined"
    ensures n.Null? ==> s == "null"
    ensures n.Seasons? && n.n >= 0 ==> IsDigits(s) && ParseNat(s) == Some(n.n)
  {
    match n
    case Seasons(k) =>
      if k >= 0 then NatToStringRoundTrip(k); IntToString(k) else IntToString(k)
    case Absent => "undefined"
    case Null => "null"
  }

  /** `${n} Season${n !== 1 ? "s" : ""}`, for shows only. */
  function SeasonsLabel(kind: Kind, d: Detail): (r: Option<string>)
    ensures r.Some? <==> kind.Tv?
    ensures r.Some? && d.numberOfSeasons == Seasons(1) ==> r.value == "1 Season"
    ensures r.Some? && d.numberOfSeasons != Seasons(1) ==> r.value == SeasonCount(d.numberOfSeasons) + " Seasons"
  {
    if kind.Movie? then None
    else Some(SeasonCount(d.numberOfSeasons) + " Season" + (if d.numberOfSeasons != Seasons(1) then "s" else ""))
  }

  /** The label is in the singular exactly for a single season. */
  lemma SeasonsLabelSingular(d: Detail)
    ensures var s := SeasonsLabel(Tv, d).value;
      s[|s| - 1] == 's' <==> d.numberOfSeasons != Seasons(1)
  {
    var s := SeasonsLabel(Tv, d).value;
    if d.numberOfSeasons == Seasons(1) {
      assert s == "1 Season";
    }
  }

  /** The status colour: blue on movie pages; on show pages emerald for a returning
      series and zinc for any other status, a missing one included. */
  function StatusColor(kind: Kind, status: Option<string>): (c: string)
    ensures c == "text-blue-400" <==> kind.Movie?
    ensures c == "text-emerald-400" <==> kind.Tv? && status == Some("Returning Series")
    ensures c == "text-zinc-400" <==> kind.Tv? && status != Some("Returning Series")
  {
    if kind.Movie? then "text-blue-400"
    else if status == Some("Returning Series") then "text-emerald-400"
    else "text-zinc-400"
  }

  /** The hero image: the full-size backdrop, else the full-size poster, else the
      placeholder, with empty paths counting as missing. */
  function Backdrop(d: Detail): (u: string)
    ensures Truthy(d.backdropPath) ==> u == TmdbOriginal + d.backdropPath.value
    ensures !Truthy(d.backdropPath) && Truthy(d.posterPath) ==> u == TmdbOriginal + d.posterPath.value
    ensures !Truthy(d.backdropPath) && !Truthy(d.posterPath) ==> u == Placeholder
  {
    if Truthy(d.backdropPath) then TmdbOriginal + d.backdropPath.value
    else ImageUrl(TmdbOriginal, d.posterPath, Placeholder)
  }

  /** The placeholder hero appears exactly when neither image path is usable. */
  lemma BackdropPlaceholderExactly(d: Detail)
    ensures Backdrop(d) == Placeholder <==> !Truthy(d.backdropPath) && !Truthy(d.posterPath)
  {
    if Truthy(d.backdropPath) {
      assert Backdrop(d)[0] == 'h';
    } else {
      ImageFallsBackExactly(TmdbOriginal, d.posterPath, Placeholder);
    }
  }

  /** The side poster: the w500 poster or the placeholder. */
  function Poster(d: Detail): (u: string)
    ensures Truthy(d.posterPath) ==> u == TmdbW500 + d.posterPath.value
    ensures !Truthy(d.posterPath) ==> u == Placeholder
  {
    ImageUrl(TmdbW500, d.posterPath, Placeholder)
  }

  /** A cast member's photo: the w185 profile image or the placeholder. */
  function CastPhoto(m: CastMember): (u: string)
    ensures Truthy(m.profilePath) ==> u == TmdbW185 + m.profilePath.value
    ensures !Truthy(m.profilePath) ==> u == Placeholder
  {
    ImageUrl(TmdbW185, m.profilePath, Placeholder)
  }

  predicate IsYouTubeTrailer(v: Video) {
    v.kind == Some("Trailer") && v.site == Some("YouTube")
  }

  /** The trailer button's video: the first YouTube trailer, if there is one. */
  function Trailer(d: Detail): (r: Option<Video>)
    ensures var vs := Coalesce(d.videos, []);
      r.None? <==> forall i :: 0 <= i < |vs| ==> !IsYouTubeTrailer(vs[i])
    ensures var vs := Coalesce(d.videos, []);
      forall k :: 0 <= k < |vs| && IsYouTubeTrailer(vs[k]) && (forall j :: 0 <= j < k ==> !IsYouTubeTrailer(vs[j]))
        ==> r == Some(vs[k])
  {
    var vs := Coalesce(d.videos, []);
    var k := FindIndex(IsYouTubeTrailer, vs);
    FirstMatchUnique(IsYouTubeTrailer, vs, k);
    Find(IsYouTubeTrailer, vs)
  }

  predicate IsDirector(c: CrewMember) {
    c.job == Some("Director")
  }

  /** The director cell: the name of the first crew member whose job is "Director",
      or the em dash when there is none or that entry has no name. */
  function Director(d: Detail): (s: string)
    ensures var cs := Coalesce(d.crew, []);
      (forall i :: 0 <= i < |cs| ==> !IsDirector(cs[i])) ==> s == EmDash
    ensures var cs := Coalesce(d.crew, []);
      forall k :: 0 <= k < |cs| && IsDirector(cs[k]) && (forall j :: 0 <= j < k ==> !IsDirector(cs[j]))
        ==> s == Coalesce(cs[k].name, EmDash)
  {
    var cs := Coalesce(d.crew, []);
    var k := FindIndex(IsDirector, cs);
    FirstMatchUnique(IsDirector, cs, k);
    match Find(IsDirector, cs)
    case Some(c) => Coalesce(c.name, EmDash)
    case None => EmDash
  }

  /** Two indices that are both the first match are the same index. */
  lemma FirstMatchUnique<T>(p: T -> bool, xs: seq<T>, k: int)
    requires 0 <= k < |xs| ==> p(xs[k]) && forall j :: 0 <= j < k ==> !p(xs[j])
    ensures 0 <= k < |xs| ==>
      forall m :: 0 <= m < |xs| && p(xs[m]) && (forall j :: 0 <= j < m ==> !p(xs[j])) ==> m == k
  {
  }

  /** `media.genres?.map(g => g.name) ?? []`. */
  function GenreNames(d: Detail): (r: seq<string>)
    ensures |r| == |Coalesce(d.genres, [])|
    ensures forall i :: 0 <= i < |r| ==> r[i] == Coalesce(d.genres, [])[i].name
  {
    Map((g: Genre) => g.name, Coalesce(d.genres, []))
  }

  /** `media.overview || "No description available."`: an empty overview is replaced too. */
  function Overview(d: Detail): (s: string)
    ensures Truthy(d.overview) ==> s == d.overview.value
    ensures !Truthy(d.overview) ==> s == "No description available."
    ensures s != ""
  {
    if Truthy(d.overview) then d.overview.value else "No description available."
  }

  /** A recommendation's thumbnail: the w300 backdrop, else the w185 poster, else the
      placeholder. */
  function RecommendationImage(rec: Item): (u: string)
    ensures Truthy(rec.backdropPath) ==> u == TmdbW300 + rec.backdropPath.value
    ensures !Truthy(rec.backdropPath) && Truthy(rec.posterPath) ==> u == TmdbW185 + rec.posterPath.value
    ensures !Truthy(rec.backdropPath) && !Truthy(rec.posterPath) ==> u == Placeholder
  {
    if Truthy(rec.backdropPath) then TmdbW300 + rec.backdropPath.value
    else ImageUrl(TmdbW185, rec.posterPath, Placeholder)
  }

  /** The path a recommendation click navigates to as written: `/${type}/${rec.id}`,
      where the page's type is "movie" or "tv". */
  function RecommendationPathAsWritten(kind: Kind, rec: Item): (p: string)
    ensures kind.Movie? ==> p == Path(MovieRoute(rec.id))
    ensures kind.Tv? ==> p == "/tv/" + NatToString(rec.id) && p != Path(ShowRoute(rec.id))
  {
    var p := "/" + (if kind.Movie? then "movie" else "tv") + "/" + NatToString(rec.id);
    assert kind.Tv? ==> p[1] != Path(ShowRoute(rec.id))[1];
    p
  }

  /** On a show page the written path is `/tv/<id>`, which is not a details route, so
      the click leads nowhere. */
  lemma RecommendationPathAsWrittenMissesShows(rec: Item)
    ensures ParseDetailPath(RecommendationPathAsWritten(Tv, rec)) == None
  {
    var p := RecommendationPathAsWritten(Tv, rec);
    assert p[1] == 't';
  }

  /** The intended destination: the details route of the same kind as the current page. */
  function RecommendationRoute(kind: Kind, rec: Item): (r: Route)
    ensures r.id == rec.id && (r.MovieRoute? <==> kind.Movie?)
  {
    if kind.Movie? then MovieRoute(rec.id) else ShowRoute(rec.id)
  }

  /** The corrected route opens the details view of the page's kind for the recommended
      id, on movie and show pages alike. */
  lemma RecommendationRouteOpensDetails(kind: Kind, rec: Item)
    ensures ParseDetailPath(Path(RecommendationRoute(kind, rec))) == Some((kind, rec.id))
  {
    PathRoundTrip(RecommendationRoute(kind, rec));
  }
}
