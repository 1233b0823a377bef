# StreamX view state in Dafny

StreamX is a React front end over a movie/TV metadata REST API. It has no parser or
engine of its own. Its logic is the bookkeeping each page does around the responses it
receives, and this project models that logic and proves properties of it:

- **Paginated lists.** The search, trending and upcoming pages keep paginated lists. A
  change of query, time window or tab restarts at page 1. Page 1 replaces the list;
  "Load More" appends the next page. "Load More" is offered only while pages are left.
- **Type filters.** The search post-filter keeps movies and shows and drops people. The
  pages' `all | movie | tv` display filter is proved an order-preserving subsequence
  that keeps each entry exactly as often as it occurs.
- **Derived display fields.** These cover:
  - the title and date fallbacks, where `??` falls back only on an absent field;
  - the image fallbacks, where `||` and `?:` also fall back on an empty string;
  - the runtime and seasons labels, the status colour and the trailer and director picks;
  - the caps on cast, recommendations, slides and top-ten lists;
  - the genre label built from the genre table, and overview truncation;
  - the countdown badge and the active-slide dots.

Stateful components are Dafny classes. Each class has the component's `useState`
variables as fields, and one method per effect or handler. An effect that awaits a
request is split in two:

- a method that runs up to the request, which is all the component does before its
  `await` or `.then`;
- a method that takes the response as a parameter, which is the continuation.

A rejected promise with no `catch` never runs its continuation, so the state stays as
the first method left it. A response is `Settled<T>` (resolved with a body, or
rejected) where the source catches errors.

Pure derivations are functions. Their contracts, and lemmas beside them, state what the
page promises. Among the lemmas:

- the route a card navigates to parses back to the same details view and id;
- accumulating pages one at a time equals filtering all pages at once;
- a genre pill shows the first known genre;
- exactly one carousel dot is lit.

Modules:

- `JsValue`, `JsArray` and `JsString` model the JavaScript values and built-ins the
  pages use: optional fields, truthiness, `slice`, `filter`, `find`, `map`, `trim`,
  `join`, `split(sep)[0]` and decimal number text.
- `Media` holds the shared catalog entry, the list payload, the display filter and the
  detail routes.
- One module per component: `SearchApi`, `SearchPage`, `Trending`, `Upcoming`,
  `ShowDetails`, `PopularOfWeek`, `HeroCarousel` (the home hero carousel) and
  `FeaturedBanner`.

Three behaviours of the code are worth stating up front:

- **Search pagination.** `fetchResults` passes React a functional updater for page 2 and
  later (src/pages/SearchPage.tsx:31). React applies it to the current list, so the
  branch appends. `SearchView.CompleteFetch` models it as an append.
- **Trending and upcoming keep the old list until the response arrives.** A change of
  time window or tab clears nothing. The old list stays until page 1 arrives; only the
  search page empties its results first.
- **No error state.** A failed request surfaces nothing. The search page, the details
  page and the hero carousel clear their loading flag on failure. The trending and
  upcoming pages have no `catch`, so after a failure they stay in their loading state.

## Model

| member | source | states |
|---|---|---|
| JsArray.Slice | src/pages/ShowDetails.tsx:85 | `slice(0, n)` gives a prefix of the list of at most `n` elements: exactly `n` when the list is long enough, and the whole list otherwise |
| JsArray.Filter | src/apis/Search.api.ts:39-41 | every kept element satisfies the predicate and comes from the input, and every input element that satisfies it is kept |
| JsArray.FilterCounts | src/apis/Search.api.ts:39-41 | a value occurs in the result exactly as often as in the input when it satisfies the predicate, and never otherwise |
| JsArray.FilterEmbedding | src/apis/Search.api.ts:39-41 | the kept elements sit at strictly increasing positions of the input (order preserved) |
| JsArray.FilterIsSubsequence | src/apis/Search.api.ts:39-41 | the result is an order-preserving subsequence of the input |
| JsArray.FilterKeepsAll | src/apis/Search.api.ts:39-41 | a list whose elements all satisfy the predicate is returned unchanged |
| JsArray.FilterIdempotent | src/apis/Search.api.ts:39-41 | filtering twice by the same predicate equals filtering once |
| JsArray.FilterAppend | src/pages/trending.tsx:57 | filtering a concatenation is concatenating the filtered parts |
| JsArray.FindIndex | src/pages/ShowDetails.tsx:86 | -1 exactly when nothing matches, otherwise the index of a match with no match before it |
| JsArray.Find | src/pages/ShowDetails.tsx:86 | `find` is absent exactly when nothing matches, otherwise it is the first matching element |
| JsString.TrimStart | src/pages/SearchPage.tsx:27 | drops exactly the leading whitespace: the result is a suffix that does not start with whitespace |
| JsString.TrimEnd | src/pages/SearchPage.tsx:27 | drops exactly the trailing whitespace: the result is a prefix that does not end with whitespace |
| JsString.TrimBlank | src/pages/SearchPage.tsx:27 | `q.trim()` is empty exactly when every character of `q` is whitespace |
| JsString.TrimIdempotent | src/pages/SearchPage.tsx:54-55 | trimming a trimmed string changes nothing |
| JsString.NatToString | src/pages/SearchPage.tsx:60 | an id prints as a non-empty digit string with no leading zero |
| JsString.NatToStringRoundTrip | src/pages/SearchPage.tsx:60 | the decimal text of an id in a route parses back to the same number |
| JsString.NatToStringInjective | src/pages/upcoming.tsx:64 | different counts print differently |
| JsString.BeforeFirst | src/components/PopularOfWeek.tsx:119 | `split(sep)[0]` is a prefix of the string |
| JsString.BeforeFirstStops | src/components/PopularOfWeek.tsx:119 | `split(sep)[0]` is everything before the first occurrence of the separator |
| Media.KeepScreenMedia | src/apis/Search.api.ts:39-41 | every entry left is a movie or a show |
| Media.KeepScreenMediaSpec | src/apis/Search.api.ts:39-41 | the movie/tv restriction is an order-preserving subsequence keeping each movie/tv entry as often as it occurs, and applying it twice equals once |
| Media.ApplyFilter | src/pages/SearchPage.tsx:64 | filter `all` shows the list as it is; `movie`/`tv` shows only entries of that type, all taken from the list, and every entry of that type is shown |
| Media.ApplyFilterSpec | src/pages/SearchPage.tsx:64 | filter `all` returns the list unchanged; `movie`/`tv` keeps exactly the entries of that type, in order, as often as they occur |
| Media.ApplyFilterKeepsScreenMedia | src/pages/trending.tsx:62 | a list of movies and shows stays one under any display filter |
| Media.DisplayTitle | src/pages/SearchPage.tsx:65 | title, else name, else "Unknown", falling back only on absent fields (a present empty title is shown) |
| Media.DisplayDate | src/pages/SearchPage.tsx:66 | release date if present (even empty), else first air date |
| Media.ImageUrl | src/pages/ShowDetails.tsx:84 | CDN base plus path for a non-empty path, the fallback image for an absent or empty one |
| Media.ImageFallsBackExactly | src/pages/ShowDetails.tsx:84 | the fallback image is shown exactly when the path is absent or empty |
| Media.PathRoundTrip | src/pages/SearchPage.tsx:60 | a card's `/movie/<id>` or `/show/<id>` path opens the details view of the same kind for the same id |
| Media.CardRoute | src/pages/SearchPage.tsx:59-62 | a card goes to the movie route exactly for `media_type` "movie", otherwise to the show route, keeping the id |
| Media.Ranked | src/pages/trending.tsx:149 | the badge of the card at position i is i + 1 |
| SearchApi.SearchMulti | src/apis/Search.api.ts:37-41 | results are movies and shows only, an absent `results` gives none, and total_results, total_pages and page pass through unchanged |
| SearchApi.SearchMultiResults | src/apis/Search.api.ts:39-41 | returned results are an order-preserving subsequence of the upstream ones, keeping each movie/tv entry as often as it occurs; filtering again is a no-op |
| SearchPage.Submission | src/pages/SearchPage.tsx:52-57 | a new query is submitted exactly when the trimmed input is non-empty and differs from the current query, and it is the trimmed input |
| SearchPage.SubmissionChangesQuery | src/pages/SearchPage.tsx:54-55 | a submitted query differs from the current one, is already trimmed and is not blank |
| SearchPage.SearchView.constructor | src/pages/SearchPage.tsx:15-23 | initial state: no results, not loading, page 1 of 1, filter all, input shows the query |
| SearchPage.SearchView.BeginFetch | src/pages/SearchPage.tsx:27-28 | a blank query empties the results and requests nothing, leaving loading and totals; otherwise loading turns on and a request goes out |
| SearchPage.SearchView.CompleteFetch | src/pages/SearchPage.tsx:29-38 | page 1 replaces the results, a later page appends after them (old results stay a prefix); totals come from the response; a failure keeps results and totals; loading ends either way |
| SearchPage.SearchView.QueryChanged | src/pages/SearchPage.tsx:41-46 | a query change resets to page 1 with no results, copies the query into the input and requests page 1 unless the query is blank |
| SearchPage.SearchView.PageChanged | src/pages/SearchPage.tsx:48-50 | a page change requests that page only when it is after page 1 (and the query is not blank) |
| SearchPage.SearchView.NextPage | src/pages/SearchPage.tsx:232-233 | "Load More", clickable only while no fetch runs, advances the page by exactly one and changes nothing else |
| SearchPage.SearchView.EditInput | src/pages/SearchPage.tsx:93 | typing changes only the input |
| SearchPage.SearchView.SelectFilter | src/pages/SearchPage.tsx:127 | a filter tab changes only the filter |
| SearchPage.SearchView.Submit | src/pages/SearchPage.tsx:52-57 | a valid submission runs the query change for the trimmed input, so a request goes out and loading turns on; anything else changes nothing and requests nothing |
| SearchPage.SearchView.Filtered | src/pages/SearchPage.tsx:64 | the grid is the display filter applied to the results: all of them under `all`; under `movie`/`tv` an order-preserving subsequence holding only, and every, result of that type |
| SearchPage.SearchView.LoadMoreShown | src/pages/SearchPage.tsx:229 | "Load More" appears only with results present and pages left |
| SearchPage.YearLabel | src/pages/SearchPage.tsx:219 | the year is exactly the first four characters of the display date (all of it when shorter), or an em dash when there is no date |
| Trending.TrendingView.constructor | src/pages/trending.tsx:35-41 | initial state: no items, loading, window "day", filter all, page 1 of 1 |
| Trending.TrendingView.WindowEffect | src/pages/trending.tsx:43-46 | the window effect turns loading on and goes back to page 1, keeping the items until the response |
| Trending.TrendingView.SelectTimeWindow | src/pages/trending.tsx:92 | the effect runs exactly when the chosen window differs from the current one |
| Trending.TrendingView.ReceiveFirstPage | src/pages/trending.tsx:46-50 | the items become the page-1 movie/tv results (none when absent), totalPages comes from the response, loading ends, and "Load More" shows exactly when the current page is before the last |
| Trending.TrendingView.BeginLoadMore | src/pages/trending.tsx:53-56 | "Load More", clickable only while no load runs, turns loadingMore on and requests the page after the current one |
| Trending.TrendingView.ReceiveMore | src/pages/trending.tsx:56-59 | the movie/tv results of the next page are appended, the old items stay a prefix, the page becomes the one requested, and "Load More" disappears once the last page has arrived |
| Trending.TrendingView.SelectFilter | src/pages/trending.tsx:107 | a filter tab changes only the filter |
| Trending.TrendingView.Grid | src/pages/trending.tsx:135-149 | the grid is the filtered items, each badged with its position plus one, all movies or shows |
| Trending.TrendingView.LoadMoreShown | src/pages/trending.tsx:176 | "Load More" appears only after loading, and only when the page it would request exists |
| Trending.AccumulatedPages | src/pages/trending.tsx:53-60 | accumulating pages one by one gives the same items as restricting all pages, concatenated in order, to movies and shows at once |
| Upcoming.FormatDate | src/pages/upcoming.tsx:49-54 | an absent or empty date reads "TBA", any other is formatted |
| Upcoming.Countdown | src/pages/upcoming.tsx:57-65 | no badge for an empty date or a past day; "Today" for 0, "Tomorrow" for 1, "In n days" beyond |
| Upcoming.CountdownDeterminesDays | src/pages/upcoming.tsx:61-64 | two day counts with the same badge are equal |
| Upcoming.TabRoute | src/pages/upcoming.tsx:229 | cards open the movie route on the movies tab and the show route on the tv tab, keeping the id |
| Upcoming.UpcomingView.constructor | src/pages/upcoming.tsx:69-76 | initial state: movies tab, no lists, loading, page 1 of 1, first entry featured |
| Upcoming.UpcomingView.TabEffect | src/pages/upcoming.tsx:78-80 | the tab effect turns loading on, goes back to page 1 and requests the current tab |
| Upcoming.UpcomingView.SelectTab | src/pages/upcoming.tsx:192 | the effect runs exactly when the chosen tab differs from the current one |
| Upcoming.UpcomingView.ReceiveFirstPage | src/pages/upcoming.tsx:81-95 | only the requested tab's list becomes the page-1 results (empty when absent); a response for the other tab leaves the displayed list alone; on the shown tab the first result is featured and the hero shows exactly when there are results; totalPages is set, loading ends, and "Load More" shows exactly when pages are left |
| Upcoming.UpcomingView.BeginLoadMore | src/pages/upcoming.tsx:98-100 | "Load More", clickable only while no load runs, turns loadingMore on and requests the page after the current one for the current tab |
| Upcoming.UpcomingView.ReceiveMore | src/pages/upcoming.tsx:101-109 | the next page is appended to that tab's list only, so the displayed list keeps its entries as a prefix and the featured entry stays; the page becomes the one requested, and "Load More" disappears once the last page has arrived |
| Upcoming.UpcomingView.ClickCard | src/pages/upcoming.tsx:227-229 | card i becomes the featured entry and the tab decides the route |
| Upcoming.UpcomingView.Featured | src/pages/upcoming.tsx:113 | the featured entry is `items[featuredIndex]`, absent exactly when the index is out of range |
| Upcoming.UpcomingView.HeroShown | src/pages/upcoming.tsx:129 | the hero appears only after loading and only for a featured index inside the displayed list |
| Upcoming.UpcomingView.Hero | src/pages/upcoming.tsx:112-172 | the hero, shown exactly when HeroShown holds, carries the featured entry's title and date for the tab, the full-size backdrop URL when it has a usable backdrop and the placeholder otherwise, and a button route that opens that entry's details view of the tab's kind |
| ShowDetails.DetailsView.constructor | src/pages/ShowDetails.tsx:25-26 | initial state: no record, loading |
| ShowDetails.DetailsView.Open | src/pages/ShowDetails.tsx:28-32 | without an id nothing happens; otherwise loading turns on and the record is requested |
| ShowDetails.DetailsView.Settle | src/pages/ShowDetails.tsx:33-34 | a response becomes the record, a failure keeps the old one, loading ends either way |
| ShowDetails.DetailsView.View | src/pages/ShowDetails.tsx:38-60 | spinner exactly while loading; "Not found" exactly when the record is absent or says `success: false`; otherwise the normalised record |
| ShowDetails.Normalize | src/pages/ShowDetails.tsx:63-88 | movie pages read title/release date and show pages name/first air date; seasons only for shows, director only for movies; cast, recommendations and hero genres are the first 8, 3 and 3 entries (all of them when fewer); runtime, seasons, status colour, backdrop, poster, trailer, overview, director and genres are the ones RuntimeLabel, SeasonsLabel, StatusColor, Backdrop, Poster, Trailer, Overview, Director and GenreNames give |
| ShowDetails.RuntimeLabel | src/pages/ShowDetails.tsx:66-68 | `<n>m` for a movie with non-zero runtime, `<n>m / ep` for a show with a non-zero first episode runtime, no label otherwise |
| ShowDetails.RuntimeLabelReadsBack | src/pages/ShowDetails.tsx:66-68 | the minutes can be read back from a runtime label |
| ShowDetails.SeasonCount | src/pages/ShowDetails.tsx:70 | an absent count prints "undefined", a JSON null prints "null", and a non-negative count prints as digits that read back as the count |
| ShowDetails.SeasonsLabel | src/pages/ShowDetails.tsx:69-71 | shows only; "1 Season" for a count of exactly 1, "<count> Seasons" otherwise (including an absent or null count) |
| ShowDetails.SeasonsLabelSingular | src/pages/ShowDetails.tsx:70 | the label ends in "s" exactly when the count is not 1 |
| ShowDetails.StatusColor | src/pages/ShowDetails.tsx:73-75 | blue exactly on movie pages, emerald exactly for a returning series, zinc exactly for any other show status |
| ShowDetails.Backdrop | src/pages/ShowDetails.tsx:78-82 | the backdrop, else the poster (both full size), else the placeholder, empty paths counting as absent |
| ShowDetails.BackdropPlaceholderExactly | src/pages/ShowDetails.tsx:78-82 | the placeholder hero appears exactly when neither path is usable |
| ShowDetails.Poster | src/pages/ShowDetails.tsx:84 | the w500 poster, or the placeholder for an absent or empty path |
| ShowDetails.CastPhoto | src/pages/ShowDetails.tsx:292 | the w185 profile image, or the placeholder |
| ShowDetails.Trailer | src/pages/ShowDetails.tsx:86 | the first video that is a YouTube trailer; absent exactly when there is none |
| ShowDetails.Director | src/pages/ShowDetails.tsx:241 | the name of the first crew member whose job is "Director"; an em dash when there is none or it has no name |
| ShowDetails.GenreNames | src/pages/ShowDetails.tsx:88 | the genre names in order, none when genres are absent |
| ShowDetails.Overview | src/pages/ShowDetails.tsx:188 | the overview, or "No description available." when it is absent or empty; never empty |
| ShowDetails.RecommendationImage | src/pages/ShowDetails.tsx:345-349 | the w300 backdrop, else the w185 poster, else the placeholder |
| ShowDetails.RecommendationPathAsWritten | src/pages/ShowDetails.tsx:340 | as written the path is the movie details path on movie pages, but `/tv/<id>` on show pages, which is not the show details path |
| ShowDetails.RecommendationPathAsWrittenMissesShows | src/pages/ShowDetails.tsx:340 | on a show page the recommendation path as written is not a details route |
| ShowDetails.RecommendationRoute | src/pages/ShowDetails.tsx:340 | a recommendation opens the details route of the page's kind, keeping the id |
| ShowDetails.RecommendationRouteOpensDetails | src/pages/ShowDetails.tsx:340 | the corrected route opens the details view of the page's kind for the recommended id |
| PopularOfWeek.GenreMapKeys | src/components/PopularOfWeek.tsx:14-34 | the genre table has exactly the nineteen listed ids |
| PopularOfWeek.GenreNamesPlain | src/components/PopularOfWeek.tsx:14-34 | no genre name is empty or contains "+" |
| PopularOfWeek.Lookup | src/components/PopularOfWeek.tsx:72 | a table id gives its name, any other id gives nothing |
| PopularOfWeek.Compact | src/components/PopularOfWeek.tsx:73 | `filter(Boolean)` leaves only non-empty names |
| PopularOfWeek.GenreLabel | src/components/PopularOfWeek.tsx:71-75 | the label is empty without names, the one name when there is one, and the first two names around " + " otherwise |
| PopularOfWeek.GenreNamesAreKnownNames | src/components/PopularOfWeek.tsx:71-73 | looking up and dropping misses equals naming the known ids, in genre_ids order |
| PopularOfWeek.GenreLabelSpec | src/components/PopularOfWeek.tsx:71-75 | the label joins the names of the first two known ids with " + " |
| PopularOfWeek.GenreLabelNames | src/components/PopularOfWeek.tsx:71-75 | the label has at most two names, each the table name of one of the movie's ids, in genre_ids order |
| PopularOfWeek.GenreNamesEmpty | src/components/PopularOfWeek.tsx:71-73 | no names come out exactly when no id is in the table |
| PopularOfWeek.GenreLabelEmpty | src/components/PopularOfWeek.tsx:71-75 | the label is empty exactly when no id is in the table |
| PopularOfWeek.GenreDisplay | src/components/PopularOfWeek.tsx:109 | "Unknown" exactly when no id is known, the label otherwise |
| PopularOfWeek.UnknownIsNoLabel | src/components/PopularOfWeek.tsx:109 | no genre label reads "Unknown" |
| PopularOfWeek.Pill | src/components/PopularOfWeek.tsx:117-119 | the pill appears exactly for a non-empty label |
| PopularOfWeek.PillShowsFirstGenre | src/components/PopularOfWeek.tsx:117-119 | the pill shows the first known genre |
| PopularOfWeek.SplitJoinFirst | src/components/PopularOfWeek.tsx:119 | splitting a " + "-joined list gives back its first entry when that has no "+" |
| PopularOfWeek.Loaded | src/components/PopularOfWeek.tsx:40-50 | the carousel holds a prefix of at most ten results (all of them when fewer); a failure or a body without results leaves it empty |
| PopularOfWeek.Cards | src/components/PopularOfWeek.tsx:70-119 | card i has rank i + 1, opens the movie route, shows the genre display and pill of that movie, the w300 poster (placeholder when absent or empty) and the first four characters of the release date, absent with it |
| HeroCarousel.HeroView.constructor | src/components/examples/carousel/standard/carousel-standard-4.tsx:19-21 | initial state: no slides, loading, first slide active |
| HeroCarousel.HeroView.ReceiveDiscover | src/components/examples/carousel/standard/carousel-standard-4.tsx:40-51 | results give a prefix of at most five slides; a non-OK response, an error or a body without results keeps the slides, so from the start the page shows "No shows available"; loading ends in every case |
| HeroCarousel.HeroView.SelectSnap | src/components/examples/carousel/standard/carousel-standard-4.tsx:32-34 | the reported slide becomes active and nothing else changes |
| HeroCarousel.HeroView.View | src/components/examples/carousel/standard/carousel-standard-4.tsx:56-71 | spinner exactly while loading, "No shows available" exactly for no slides after loading, else the slides |
| HeroCarousel.HeroView.Dots | src/components/examples/carousel/standard/carousel-standard-4.tsx:168-176 | one dot per slide, lit exactly at the active index |
| HeroCarousel.DotHighlights | src/components/examples/carousel/standard/carousel-standard-4.tsx:172-176 | dot i is lit exactly when i is the active index |
| HeroCarousel.OneDotHighlighted | src/components/examples/carousel/standard/carousel-standard-4.tsx:168-176 | exactly one dot is lit when the active index names a slide, none otherwise |
| HeroCarousel.TruncatedOverview | src/components/examples/carousel/standard/carousel-standard-4.tsx:143-145 | over 250 characters: the first 250 plus "..." (253 in all); otherwise unchanged |
| HeroCarousel.TruncationIdempotent | src/components/examples/carousel/standard/carousel-standard-4.tsx:143-145 | shortening a shortened overview changes nothing |
| HeroCarousel.TruncationKeeps | src/components/examples/carousel/standard/carousel-standard-4.tsx:143-145 | an overview is shown unchanged exactly when it has at most 250 characters or is 250 followed by "..." |
| HeroCarousel.SlideImage | src/components/examples/carousel/standard/carousel-standard-4.tsx:90-94 | the full-size backdrop, and "/fallback-hero.jpg" exactly when the backdrop is absent or empty |
| HeroCarousel.SlideYear | src/components/examples/carousel/standard/carousel-standard-4.tsx:130 | the year is exactly the first four characters of the first air date (all of it when shorter), absent with it |
| HeroCarousel.PlayNow | src/components/examples/carousel/standard/carousel-standard-4.tsx:151 | "Play Now" opens the show details view of the slide's show |
| FeaturedBanner.BannerView.constructor | src/components/FeaturedBanner.tsx:18-19 | initial state: no shows, first show active |
| FeaturedBanner.BannerView.ReceiveShows | src/components/FeaturedBanner.tsx:22-32 | fetched shows replace the list and a failure leaves it (empty at first); with the first show active, the panel shows exactly when shows arrived |
| FeaturedBanner.BannerView.ClickCard | src/components/FeaturedBanner.tsx:76 | card i becomes the active show, the panel shows, and nothing else changes |
| FeaturedBanner.BannerView.ActiveShow | src/components/FeaturedBanner.tsx:34 | the active show is `shows[activeIndex]`, absent exactly when the index is out of range |
| FeaturedBanner.BannerView.PanelShown | src/components/FeaturedBanner.tsx:123 | the details panel shows exactly when the active index names a show |
| FeaturedBanner.BannerView.Background | src/components/FeaturedBanner.tsx:34-44 | the section background is the full-size backdrop of the active show when usable, else its full-size poster when usable, else the placeholder, which also shows when no show is active |
| FeaturedBanner.BannerView.PlayNow | src/components/FeaturedBanner.tsx:166 | "Play Now" opens the show details view of the active show |
| FeaturedBanner.BackgroundImage | src/components/FeaturedBanner.tsx:35-38 | a non-empty backdrop, else a non-empty poster (both full size), else the placeholder; the placeholder when no show is active |
| FeaturedBanner.BackgroundPlaceholderExactly | src/components/FeaturedBanner.tsx:35-38 | the placeholder is shown exactly when no show is active or it has neither a usable backdrop nor a usable poster |
| FeaturedBanner.PanelOverview | src/components/FeaturedBanner.tsx:159 | the overview, or "No description available." when it is empty; never empty |

## Left out

- Network requests, URL building, the API key and `res.json()` are not modelled. Each
  response is a parameter of the method that receives it.
- The missing-key and `!res.ok` throws in the API wrappers are not modelled. They reach
  the model only as a rejected or failed outcome.
- Overlapping requests are not modelled; each completion is one atomic step. The only
  guard the code has is the disabled "Load More" button (disabled while `loadingMore`
  on trending and upcoming, while `loading` on search), modelled as a precondition of
  `BeginLoadMore` and `NextPage`. Nothing stops a slow response to an earlier time
  window, tab or query from overwriting newer state, so there is no further guard to
  model.
- React batching and rendering order are not modelled. Each handler's updates are
  applied in sequence, at once.
- Floating point is left out: rating percentages, star counts, budget and revenue in
  millions, and `toFixed`. The `vote_average > 0` test that shows or hides a rating in
  the hero carousel and the upcoming hero is left out with them.
- Upcoming.UpcomingView.Hero: the hero's countdown badge is `Upcoming.Countdown` and is not
  repeated in the panel, and the overview text is shown as stored.
- Clock and locale are left out: `Date.now()` and the millisecond-to-day rounding in
  `daysUntil`, `toLocaleDateString`, `toLocaleString` and `toUpperCase`.
  - Upcoming.Countdown takes the whole-day count as a parameter.
  - Upcoming.FormatDate stops at the locale-formatted case.
- String lengths and `slice` count UTF-16 code units in JavaScript. The model counts
  characters, so text outside the Basic Multilingual Plane is not modelled.
- HeroCarousel.TruncatedOverview and the year slices are affected by this.
- `Number(id)` on a route segment is modelled only for digit strings (`ParseNat`).
- The details page's TV stats (network, episode count, language) are not modelled. The
  movie budget and revenue cells are not modelled either. They are presentation fields
  outside the normalisation block.
- The carousel, autoplay and scroll libraries are not modelled. The slide they report
  is the parameter of `HeroView.SelectSnap`; `scrollTo` on a dot click and
  `window.scrollTo` are left out.
- Navigation is represented only by the route value a handler would navigate to.
  `navigate(-1)` on the not-found page is left out.
- `FeaturedBanner.BannerView.ReceiveShows` takes the already-extracted `results` list.
  A body without `results` would store `undefined` and break the render; that case is
  left out.
- JSX, CSS and static text are not modelled. src/components/navbar.tsx,
  src/components/releaseCard.tsx, src/pages/about.tsx, src/pages/index.tsx,
  src/layouts/default.tsx and the route table in src/App.tsx are not part of this model,
  except for the two detail route shapes that `ParseDetailPath` reads.
- `total_pages` is taken to be a number. A body without it is not modelled.
- The details page stores whatever JSON the request returns; a JSON `null` body is
  modelled as an absent record.

## Findings

| source | as written | input that shows it | evidently intended | confidence | as-written member | corrected member |
|---|---|---|---|---|---|---|
| src/pages/ShowDetails.tsx:340 | a recommendation click navigates to `/${type}/${rec.id}`, which on a show page (type "tv") is `/tv/<id>` | any recommendation on a show details page, e.g. id 1399 gives `/tv/1399`, which matches no route (shows are at `/show/:id`) | navigate to `/show/<id>` on show pages and `/movie/<id>` on movie pages | high; not executed | ShowDetails.RecommendationPathAsWrittenMissesShows | ShowDetails.RecommendationRouteOpensDetails |
