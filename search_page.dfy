/** The search page: the `q` URL parameter drives a paginated multi search whose pages
    are accumulated in `results`, shown through the `all | movie | tv` filter. */
module SearchPage {
  import opened JsValue
  import opened JsString
  import opened JsArray
  import opened Media
  import SearchApi

  /** `handleSearch`: the new `q` parameter the form submits, if any. */
  function Submission(input: string, query: string): (r: Option<string>)
    ensures r.Some? <==> Trim(input) != "" && Trim(input) != query
    ensures r.Some? ==> r.value == Trim(input)
  {
    var t := Trim(input);
    if t != "" && t != query then Some(t) else None
  }

  /** A submitted query is never blank, is already trimmed and always differs from the
      current one, so the query effect runs and issues a request for it. */
  lemma SubmissionChangesQuery(input: string, query: string)
    requires Submission(input, query).Some?
    ensures var q := Submission(input, query).value;
      q != query && Trim(q) == q && !(forall i :: 0 <= i < |q| ==> IsSpace(q[i]))
  {
    TrimIdempotent(input);
    TrimBlank(Trim(input));
  }

  class SearchView {
    var query: string          // the `q` search parameter (`""` when absent)
    var results: seq<Item>
    var loading: bool
    var totalResults: int
    var page: int
    var totalPages: int
    var filter: MediaFilter
    var inputValue: string

    /** Results only ever come from `searchMulti`, so they are movies and shows. */
    ghost predicate Valid()
      reads this
    {
      forall i :: 0 <= i < |results| ==> IsScreenMedia(results[i])
    }

    /** The initial `useState` values, before the effects of the first render run. */
    constructor (q: string)
      ensures Valid()
      ensures query == q && results == [] && !loading && totalResults == 0
      ensures page == 1 && totalPages == 1 && filter == All && inputValue == q
    {
      query, results, loading, totalResults := q, [], false, 0;
      page, totalPages, filter, inputValue := 1, 1, All, q;
    }

    /** `fetchResults(q, p)` up to its `await`: a blank query empties the results and
        requests nothing; any other query turns loading on and requests page `p`. */
    method BeginFetch(q: string) returns (requested: bool)
      requires Valid()
      modifies this
      ensures Valid()
      ensures requested <==> Trim(q) != ""
      ensures results == (if requested then old(results) else [])
      ensures loading == (requested || old(loading))
      ensures query == old(query) && totalResults == old(totalResults) && page == old(page)
      ensures totalPages == old(totalPages) && filter == old(filter) && inputValue == old(inputValue)
    {
      requested := Trim(q) != "";
      if !requested {
        results := [];
      } else {
        loading := true;
      }
    }

    /** The rest of `fetchResults(q, p)`: page 1 replaces the results, a later page is
        appended after them, and the totals come from the response; a thrown error
        leaves results and totals alone. Loading ends either way. */
    method CompleteFetch(p: int, outcome: Settled<ListPage>)
      requires Valid()
      modifies this
      ensures Valid()
      ensures !loading
      ensures outcome.Resolved? ==>
        var data := SearchApi.SearchMulti(outcome.value);
        && results == (if p == 1 then data.results else old(results) + data.results)
        && totalResults == data.totalResults && totalPages == data.totalPages
      ensures outcome.Rejected? ==>
        results == old(results) && totalResults == old(totalResults) && totalPages == old(totalPages)
      ensures p != 1 ==> |old(results)| <= |results| && results[..|old(results)|] == old(results)
      ensures query == old(query) && page == old(page) && filter == old(filter) && inputValue == old(inputValue)
    {
      if outcome.Resolved? {
        var data := SearchApi.SearchMulti(outcome.value);
        results := if p == 1 then data.results else results + data.results;
        totalResults := data.totalResults;
        totalPages := data.totalPages;
      }
      loading := false;
    }

    /** The effect on `[query]`: back to page 1 with no results, the input shows the new
        query, and page 1 is requested. */
    method QueryChanged(q: string) returns (requested: bool)
      requires Valid()
      modifies this
      ensures Valid()
      ensures query == q && page == 1 && results == [] && inputValue == q
      ensures requested <==> Trim(q) != ""
      ensures loading == (requested || old(loading))
      ensures totalResults == old(totalResults) && totalPages == old(totalPages) && filter == old(filter)
    {
      query := q;
      page := 1;
      results := [];
      inputValue := q;
      requested := BeginFetch(q);
    }

    /** The effect on `[page]`: only a page after the first is requested. */
    method PageChanged() returns (requested: bool)
      requires Valid()
      modifies this
      ensures Valid()
      ensures requested <==> page > 1 && Trim(query) != ""
      ensures page <= 1 ==> results == old(results) && loading == old(loading)
      ensures page > 1 ==> results == (if requested then old(results) else [])
      ensures loading == (requested || old(loading))
      ensures query == old(query) && page == old(page) && totalResults == old(totalResults)
      ensures totalPages == old(totalPages) && filter == old(filter) && inputValue == old(inputValue)
    {
      requested := false;
      if page > 1 {
        requested := BeginFetch(query);
      }
    }

    /** The "Load More" click, `setPage(p => p + 1)`; the page effect follows. */
    method NextPage()
      requires Valid()
      requires !loading  // the button is disabled while a fetch runs
      modifies this
      ensures Valid()
      ensures page == old(page) + 1
      ensures query == old(query) && results == old(results) && loading == old(loading)
      ensures totalResults == old(totalResults) && totalPages == old(totalPages)
      ensures filter == old(filter) && inputValue == old(inputValue)
    {
      page := page + 1;
    }

    /** Typing in the search box. */
    method EditInput(text: string)
      requires Valid()
      modifies this
      ensures Valid()
      ensures inputValue == text
      ensures query == old(query) && results == old(results) && loading == old(loading) && page == old(page)
      ensures totalResults == old(totalResults) && totalPages == old(totalPages) && filter == old(filter)
    {
      inputValue := text;
    }

    /** A filter tab click. */
    method SelectFilter(f: MediaFilter)
      requires Valid()
      modifies this
      ensures Valid()
      ensures filter == f
      ensures query == old(query) && results == old(results) && loading == old(loading) && page == old(page)
      ensures totalResults == old(totalResults) && totalPages == old(totalPages) && inputValue == old(inputValue)
    {
      filter := f;
    }

    /** Submitting the form: a non-blank trimmed input that differs from the current
        query becomes the `q` parameter, and the query effect runs for it; otherwise
        nothing changes. */
    method Submit() returns (requested: bool)
      requires Valid()
      modifies this
      ensures Valid()
      ensures var s := Submission(old(inputValue), old(query));
        && (s.Some? ==> query == s.value && page == 1 && results == [] && inputValue == s.value && requested && loading)
        && (s.None? ==> query == old(query) && page == old(page) && results == old(results)
                        && inputValue == old(inputValue) && loading == old(loading) && !requested)
      ensures totalResults == old(totalResults) && totalPages == old(totalPages) && filter == old(filter)
    {
      var s := Submission(inputValue, query);
      requested := false;
      if s.Some? {
        SubmissionChangesQuery(inputValue, query);
        TrimBlank(s.value);
        requested := QueryChanged(s.value);
      }
    }

    /** The list the grid shows. */
    function Filtered(): (r: seq<Item>)
      reads this
      ensures r == ApplyFilter(filter, results)
      ensures filter.All? ==> r == results
      ensures !filter.All? ==> IsSubsequence(r, results)
      ensures !filter.All? ==> forall i :: 0 <= i < |r| ==> r[i].mediaType == filter.Tag() && r[i] in results
      ensures !filter.All? ==> forall i :: 0 <= i < |results| && results[i].mediaType == filter.Tag() ==> results[i] in r
    {
      ApplyFilterSpec(filter, results);
      ApplyFilter(filter, results)
    }

    /** "Load More" is rendered only for a non-empty filtered list with pages left, so
        never while there are no results at all. */
    predicate LoadMoreShown()
      reads this
      ensures LoadMoreShown() ==> results != [] && page < totalPages
    {
      |Filtered()| > 0 && page < totalPages
    }
  }

  /** The year under a card: `date(result)?.slice(0, 4) ?? "—"`. */
  function YearLabel(item: Item): (y: string)
    ensures DisplayDate(item).None? ==> y == EmDash
    ensures DisplayDate(item).Some? ==>
      var d := DisplayDate(item).value;
      |y| == (if |d| < 4 then |d| else 4) && y == d[..|y|]
  {
    match DisplayDate(item)
    case Some(d) => JsArray.Slice(d, 4)
    case None => EmDash
  }
}
